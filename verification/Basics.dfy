/** Small functions that several of the other modules use. */
module Basics {

  function Min(a: nat, b: nat): (r: nat)
    ensures r <= a && r <= b && (r == a || r == b)
  { if a < b then a else b }

  function Max(a: nat, b: nat): (r: nat)
    ensures r >= a && r >= b && (r == a || r == b)
  { if a < b then b else a }

  /** The addresses from `lo` on, below `hi` */
  function Range(lo: int, hi: int): (r: set<int>)
    ensures forall h :: h in r <==> lo <= h < hi
    decreases hi - lo
  { if lo >= hi then {} else {lo} + Range(lo + 1, hi) }

  /** The place of an element in a list, or the length */
  function IndexOf(L: seq<int>, e: int): (i: nat)
    ensures i <= |L| && (i < |L| <==> e in L) && (i < |L| ==> L[i] == e)
  { if L == [] || L[0] == e then 0 else 1 + IndexOf(L[1..], e) }
}
