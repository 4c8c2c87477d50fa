/**
 * The integer operators of `rdc_op.c` on 32-bit values, and the fold that a
 * reduction promises.
 */
module ReduceOps {

  const INT_MIN := -0x8000_0000
  const INT_MAX := 0x7fff_ffff

  /** A C `int` of 32 bits */
  type Int32 = x: int | INT_MIN <= x <= INT_MAX

  /** Two's complement wrap-around, as the addition instruction does it */
  function Wrap(x: int): (r: Int32)
    ensures (r - x) % 0x1_0000_0000 == 0
    ensures INT_MIN <= x <= INT_MAX ==> r == x
  {
    (x - INT_MIN) % 0x1_0000_0000 + INT_MIN
  }

  datatype Op = MAX | MIN | SUM

  function Apply(op: Op, a: Int32, b: Int32): Int32 {
    match op
    case MAX => if b > a then b else a
    case MIN => if b < a then b else a
    case SUM => Wrap(a + b)
  }

  /** The neutral element */
  function Unit(op: Op): Int32 {
    match op
    case MAX => INT_MIN
    case MIN => INT_MAX
    case SUM => 0
  }

  /** The reduction of one element over the ranks, in rank order */
  function Fold(op: Op, xs: seq<Int32>): Int32 {
    if xs == [] then Unit(op) else Apply(op, Fold(op, xs[..|xs| - 1]), xs[|xs| - 1])
  }

  lemma WrapTwice(x: int, y: int)
    ensures Wrap(Wrap(x) + y) == Wrap(x + y)
  {
    var q := (x - INT_MIN) / 0x1_0000_0000;
    assert Wrap(x) == x - q * 0x1_0000_0000;
    WrapShift(x + y, -q);
  }

  lemma WrapShift(x: int, q: int)
    ensures Wrap(x + q * 0x1_0000_0000) == Wrap(x)
  {
    var z := x - INT_MIN;
    assert z + q * 0x1_0000_0000 == (z / 0x1_0000_0000 + q) * 0x1_0000_0000 + z % 0x1_0000_0000;
  }

  lemma SumLaws(a: Int32, b: Int32, c: Int32)
    ensures Wrap(Wrap(a + b) + c) == Wrap(a + Wrap(b + c))
  {
    hide Wrap;
    WrapTwice(a + b, c);
    WrapTwice(b + c, a);
    assert (a + b) + c == (b + c) + a && a + Wrap(b + c) == Wrap(b + c) + a;
  }

  lemma ApplyLaws(op: Op, a: Int32, b: Int32, c: Int32)
    ensures Apply(op, a, b) == Apply(op, b, a)
    ensures Apply(op, Apply(op, a, b), c) == Apply(op, a, Apply(op, b, c))
    ensures Apply(op, a, Unit(op)) == a
  {
    if op == SUM {
      SumLaws(a, b, c);
      hide Wrap;
    }
  }

  /** A rank's value takes the place of a neutral element: the fold absorbs it, in whatever order the ranks come. */
  lemma {:induction false} FoldUpdate(op: Op, xs: seq<Int32>, i: nat, v: Int32)
    requires i < |xs| && xs[i] == Unit(op)
    ensures Fold(op, xs[i := v]) == Apply(op, Fold(op, xs), v)
  {
    var n := |xs| - 1;
    var front, last := Fold(op, xs[..n]), xs[n];
    if i == n {
      assert xs[i := v][..n] == xs[..n];
      ApplyLaws(op, front, v, v);
    } else {
      assert xs[i := v][..n] == xs[..n][i := v];
      FoldUpdate(op, xs[..n], i, v);
      ApplyLaws(op, front, v, last);
      ApplyLaws(op, v, last, v);
      ApplyLaws(op, front, last, v);
    }
  }

  lemma {:induction false} FoldUnits(op: Op, xs: seq<Int32>)
    requires forall i :: 0 <= i < |xs| ==> xs[i] == Unit(op)
    ensures Fold(op, xs) == Unit(op)
  {
    if xs != [] {
      FoldUnits(op, xs[..|xs| - 1]);
      ApplyLaws(op, Unit(op), Unit(op), Unit(op));
    }
  }

  // ---------- What the folds are ----------

  lemma {:induction false} FoldIsMaximum(xs: seq<Int32>)
    requires xs != []
    ensures Fold(MAX, xs) in xs && forall i :: 0 <= i < |xs| ==> xs[i] <= Fold(MAX, xs)
  {
    var n := |xs| - 1;
    if n > 0 {
      FoldIsMaximum(xs[..n]);
      assert forall i :: 0 <= i < n ==> xs[i] == xs[..n][i];
    }
  }

  lemma {:induction false} FoldIsMinimum(xs: seq<Int32>)
    requires xs != []
    ensures Fold(MIN, xs) in xs && forall i :: 0 <= i < |xs| ==> Fold(MIN, xs) <= xs[i]
  {
    var n := |xs| - 1;
    if n > 0 {
      FoldIsMinimum(xs[..n]);
      assert forall i :: 0 <= i < n ==> xs[i] == xs[..n][i];
    }
  }

  function Total(xs: seq<Int32>): int {
    if xs == [] then 0 else Total(xs[..|xs| - 1]) + xs[|xs| - 1]
  }

  lemma {:induction false} FoldIsSum(xs: seq<Int32>)
    ensures Fold(SUM, xs) == Wrap(Total(xs))
  {
    if xs != [] {
      FoldIsSum(xs[..|xs| - 1]);
      WrapTwice(Total(xs[..|xs| - 1]), xs[|xs| - 1]);
    }
  }

  // ---------- The promise ----------

  /** The value of rank `i` for element `e`, neutral where the contribution has no such element */
  function Elem(op: Op, c: seq<Int32>, e: nat): Int32 { if e < |c| then c[e] else Unit(op) }

  /** The column of element `e` over all ranks in call `k` */
  function Column(n: nat, contrib: seq<seq<seq<Int32>>>, op: Op, k: nat, e: nat): seq<Int32>
    requires |contrib| == n && forall i :: 0 <= i < n ==> k < |contrib[i]|
  { seq(n, i requires 0 <= i < n => Elem(op, contrib[i][k], e)) }
}
