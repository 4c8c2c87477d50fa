/**
 * How many threads have got past a round.  Every collective of the runtime
 * keeps such a count in an `avail`, `done` or `runners` field.
 */
module Counting {

  /** The number of threads `i` with `past[i] > k` */
  function Above(past: seq<nat>, k: int): (c: nat)
    ensures c <= |past|
  {
    if past == [] then 0 else (if past[|past| - 1] > k then 1 else 0) + Above(past[..|past| - 1], k)
  }

  /** One thread gets past its round: the count of that round grows by one and the others stay. */
  lemma {:induction false} AboveBump(past: seq<nat>, i: nat, k: int)
    requires i < |past|
    ensures Above(past[i := past[i] + 1], k) == Above(past, k) + (if past[i] == k then 1 else 0)
  {
    var n := |past| - 1;
    var next := past[i := past[i] + 1];
    if i < n {
      assert next[..n] == past[..n][i := past[i] + 1];
      AboveBump(past[..n], i, k);
    } else {
      assert next[..n] == past[..n];
    }
  }

  /** The count reaches the number of threads exactly when all are past. */
  lemma {:induction false} AboveAll(past: seq<nat>, k: int)
    ensures Above(past, k) == |past| <==> forall i :: 0 <= i < |past| ==> past[i] > k
  {
    if past != [] {
      var n := |past| - 1;
      AboveAll(past[..n], k);
      assert forall i :: 0 <= i < n ==> past[..n][i] == past[i];
    }
  }

  /** The count is zero exactly when nobody is past. */
  lemma {:induction false} AboveNone(past: seq<nat>, k: int)
    ensures Above(past, k) == 0 <==> forall i :: 0 <= i < |past| ==> past[i] <= k
  {
    if past != [] {
      var n := |past| - 1;
      AboveNone(past[..n], k);
      assert forall i :: 0 <= i < n ==> past[..n][i] == past[i];
    }
  }

  /** A later round has been passed by no more threads than an earlier one. */
  lemma {:induction false} AboveFalls(past: seq<nat>, k: int, l: int)
    requires k <= l
    ensures Above(past, l) <= Above(past, k)
  {
    if past != [] { AboveFalls(past[..|past| - 1], k, l); }
  }
}
