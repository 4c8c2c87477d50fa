/**
 * The element loops of `rdc_op.c` with their compare-and-swap retries, on the
 * array that holds the shared result.  Between two accesses nobody else comes
 * in here; `Reduce` takes the loops apart, access by access, for that.
 */
module RdcOp {
  import opened ReduceOps

  /** `cas32` of `atomic.c` */
  method Cas32(a: array<Int32>, i: nat, old_: Int32, new_: Int32) returns (ok: bool)
    requires i < a.Length
    modifies a
    ensures ok == (old(a[i]) == old_)
    ensures a[..] == if ok then old(a[..])[i := new_] else old(a[..])
  {
    ok := a[i] == old_;
    if ok { a[i] := new_; }
  }

  /** `anf32` of `atomic.c`: add and fetch, wrapping, by compare-and-swap until it succeeds */
  method Anf32(a: array<Int32>, i: nat, val: Int32) returns (r: Int32)
    requires i < a.Length
    modifies a
    ensures r == Wrap(old(a[i]) + val) && a[..] == old(a[..])[i := r]
  {
    if val == 0 {
      assert a[..] == a[..][i := a[i]];
      return a[i];
    }
    var before, done := a[i], false;
    while !done
      invariant if done then before == old(a[i]) && a[..] == old(a[..])[i := Wrap(before + val)] else a[..] == old(a[..])
      decreases !done
    {
      before := a[i];
      done := Cas32(a, i, before, Apply(SUM, before, val));
    }
    r := Apply(SUM, before, val);
  }

  /** The first `count` elements of `res` are combined with those of `src`, and the rest stays. */
  ghost predicate CombinedUpTo(op: Op, was: seq<Int32>, now: seq<Int32>, src: seq<Int32>, count: nat)
    requires count <= |src| && count <= |was|
  {
    && |now| == |was|
    && (forall k :: 0 <= k < count ==> now[k] == Apply(op, was[k], src[k]))
    && (forall k :: count <= k < |was| ==> now[k] == was[k])
  }

  /** `rdc_int_max` and `rdc_int_min`: they differ in the test that ends the retries */
  method RdcIntExtreme(op: Op, res: array<Int32>, src: seq<Int32>, count: nat)
    requires op != SUM && count <= |src| && count <= res.Length
    modifies res
    ensures CombinedUpTo(op, old(res[..]), res[..], src, count)
  {
    var i := 0;
    while i < count
      invariant i <= count && CombinedUpTo(op, old(res[..]), res[..], src, i)
    {
      ghost var was := res[..];
      var done := false;
      while !done
        invariant |res[..]| == |was| && forall k :: 0 <= k < |was| && k != i ==> res[..][k] == was[k]
        invariant res[i] == if done then Apply(op, was[i], src[i]) else was[i]
        decreases !done
      {
        var tmp1, tmp2 := res[i], src[i];
        if (if op == MAX then tmp2 <= tmp1 else tmp2 >= tmp1) { done := true; break; }
        done := Cas32(res, i, tmp1, tmp2);
      }
      i := i + 1;
    }
  }

  /** `rdc_int_sum` */
  method RdcIntSum(res: array<Int32>, src: seq<Int32>, count: nat)
    requires count <= |src| && count <= res.Length
    modifies res
    ensures CombinedUpTo(SUM, old(res[..]), res[..], src, count)
  {
    for i := 0 to count
      invariant CombinedUpTo(SUM, old(res[..]), res[..], src, i)
    {
      var r := Anf32(res, i, src[i]);
    }
  }
}
