/**
 * The ranks of the nodes (`netq.c`): the ids that a group file gives to the
 * nodes of its machines, the ids that the program fills in, and the tables
 * that translate between a global rank and a machine with a local rank.
 *
 * A line of the file is its tokens already split, and numbers fit in an `int`.
 * The code has room for `NETQ_MAX_NODES` machines and for the ids of
 * `NETQ_MAX_NODES_PER_HOST` nodes of each, and tests neither: where it would
 * leave a table the outcome here is `Overrun`.
 */
module NetqRanks {
  import opened Basics

  const NONE := -1
  const NETQ_MAX_NODES_PER_HOST := 256
  const NETQ_MAX_NODES := 256

  /** Done; refused, as the code does; or about to leave a table, as the code does not see */
  datatype Outcome = Done | Refused | Overrun

  // ---------- One line: the ids of one machine ----------

  /** A token behind the number of nodes: an id, a range of ids in either order, or anything else */
  datatype Token = Id(v: nat) | Span(a: nat, b: nat) | Junk

  /** The numbers from `lo` to `hi - 1` */
  function Upto(lo: int, hi: int): (r: seq<int>)
    ensures |r| == if lo < hi then hi - lo else 0
    ensures forall k :: 0 <= k < |r| ==> r[k] == lo + k
    decreases hi - lo
  { if lo >= hi then [] else [lo] + Upto(lo + 1, hi) }

  function Ids(t: Token): seq<int> {
    match t
    case Id(v) => [v]
    case Span(a, b) => Upto(Min(a, b), Max(a, b) + 1)
    case Junk => []
  }

  /** The ids that a line lists, in order */
  function Listed(ts: seq<Token>): seq<int> {
    if ts == [] then [] else Listed(ts[..|ts| - 1]) + Ids(ts[|ts| - 1])
  }

  predicate LineOk(ts: seq<Token>, nNodes: nat) { Junk !in ts && |Listed(ts)| <= nNodes }

  lemma {:induction false} ListedGrows(ts: seq<Token>, i: nat)
    requires i <= |ts|
    ensures Listed(ts[..i]) <= Listed(ts)
    ensures forall v :: v in Listed(ts) ==> v >= 0
  {
    if ts == [] {
    } else if i < |ts| {
      var n := |ts| - 1;
      ListedGrows(ts[..n], i);
      assert ts[..n][..i] == ts[..i];
    } else {
      ListedGrows(ts[..|ts| - 1], 0);
      assert ts[..i] == ts;
    }
  }

  /** The inner loop of a range: `from` to `to` from place `i` on */
  method FillSpan(ids: array<int>, i: nat, from: nat, to: nat) returns (next: nat)
    requires from <= to && i + to - from < ids.Length
    modifies ids
    ensures next == i + to - from + 1
    ensures ids[..next] == old(ids[..i]) + Upto(from, to + 1) && ids[next..] == old(ids[next..])
  {
    next := i;
    var j := from;
    while j <= to
      invariant from <= j <= to + 1 && next == i + j - from
      invariant forall k :: 0 <= k < i ==> ids[k] == old(ids[k])
      invariant forall k :: i <= k < next ==> ids[k] == from + (k - i)
      invariant forall k :: next <= k < ids.Length ==> ids[k] == old(ids[k])
    {
      ids[next] := j;
      next, j := next + 1, j + 1;
    }
  }

  /** Storing the ids of a token behind the ids of the tokens before it */
  lemma ListedNext(ts: seq<Token>, t: nat)
    requires t < |ts|
    ensures Listed(ts[..t + 1]) == Listed(ts[..t]) + Ids(ts[t])
    ensures |Listed(ts[..t + 1])| <= |Listed(ts)|
  {
    assert ts[..t + 1][..t] == ts[..t];
    ListedGrows(ts, t + 1);
  }

  /** One round of the token loop: the ids of a token go to place `i` and behind, if the line has as many nodes. */
  method StoreToken(ids: array<int>, nNodes: nat, i: nat, tok: Token) returns (r: Outcome, next: nat)
    requires i <= ids.Length
    modifies ids
    ensures r.Refused? <==> tok.Junk? || i + |Ids(tok)| > nNodes
    ensures r.Done? <==> !tok.Junk? && i + |Ids(tok)| <= nNodes && i + |Ids(tok)| <= ids.Length
    ensures r.Done? ==> next == i + |Ids(tok)| && ids[..next] == old(ids[..i]) + Ids(tok) && ids[next..] == old(ids[next..])
  {
    next := i;
    match tok {
      case Span(a, b) =>
        var from, to := a, b;
        if from > to { from, to := to, from; }
        if to - from + i >= nNodes { return Refused, i; }
        if to - from + i >= ids.Length { return Overrun, i; }
        next := FillSpan(ids, i, from, to);
      case Id(v) =>
        if i >= nNodes { return Refused, i; }
        if i >= ids.Length { return Overrun, i; }
        ids[i] := v;
        next := i + 1;
        assert ids[..next] == ids[..i] + [v];
      case Junk =>
        return Refused, i;
    }
    r := Done;
  }

  /** The number of ids that a line stores until it ends or is refused */
  function Stored(ts: seq<Token>, nNodes: nat): nat {
    if ts == [] then 0 else if LineOk(ts, nNodes) then |Listed(ts)| else Stored(ts[..|ts| - 1], nNodes)
  }

  lemma {:induction false} StoredIs(ts: seq<Token>, nNodes: nat, t: nat)
    requires t <= |ts| && LineOk(ts[..t], nNodes)
    ensures |Listed(ts[..t])| <= Stored(ts, nNodes)
    ensures t < |ts| && !LineOk(ts[..t + 1], nNodes) ==> Stored(ts, nNodes) == |Listed(ts[..t])|
  {
    NothingListed(ts);
    hide Listed;
    if t == |ts| {
      assert ts[..t] == ts;
    } else {
      var n := |ts| - 1;
      assert ts[..n][..t] == ts[..t];
      StoredIs(ts[..n], nNodes, t);
      if LineOk(ts, nNodes) {
        LinePrefix(ts, nNodes, t);
        LinePrefix(ts, nNodes, t + 1);
      } else if t < n {
        assert ts[..n][..t + 1] == ts[..t + 1];
      } else {
        assert ts[..n] == ts[..t];
      }
    }
  }

  lemma LinePrefix(ts: seq<Token>, nNodes: nat, i: nat)
    requires i <= |ts| && LineOk(ts, nNodes)
    ensures LineOk(ts[..i], nNodes) && |Listed(ts[..i])| <= |Listed(ts)|
  {
    ListedGrows(ts, i);
  }

  /** A line that asks for no more nodes than there are places never leaves its table. */
  lemma {:induction false} StoredInside(ts: seq<Token>, nNodes: nat)
    ensures Stored(ts, nNodes) <= nNodes
    ensures LineOk(ts, nNodes) ==> Stored(ts, nNodes) == |Listed(ts)|
  {
    if ts != [] { StoredInside(ts[..|ts| - 1], nNodes); }
  }

  /** The table of a machine: the listed ids come first, the rest stays open. */
  function Table(ids: seq<int>, places: nat): seq<int>
    requires |ids| <= places
  { ids + seq(places - |ids|, k => NONE) }

  /**
   * The id-filling part of `parse_one_line`.  It leaves the table of the
   * machine exactly when more ids are stored than the table has places.
   */
  method ParseIds(ts: seq<Token>, nNodes: nat) returns (r: Outcome, nodeIDs: seq<int>)
    ensures r.Overrun? <==> Stored(ts, nNodes) > NETQ_MAX_NODES_PER_HOST
    ensures r.Done? <==> LineOk(ts, nNodes) && |Listed(ts)| <= NETQ_MAX_NODES_PER_HOST
    ensures r.Done? ==> nodeIDs == Table(Listed(ts), NETQ_MAX_NODES_PER_HOST)
  {
    hide Listed, Ids, Stored;
    var ids := new int[NETQ_MAX_NODES_PER_HOST](k => NONE);
    var i, t := 0, 0;
    NothingListed(ts);
    while t < |ts|
      invariant 0 <= t <= |ts| && LineOk(ts[..t], nNodes)
      invariant i == |Listed(ts[..t])| <= ids.Length && ids[..i] == Listed(ts[..t])
      invariant ids[i..] == seq(ids.Length - i, k => NONE)
    {
      ListedNext(ts, t);
      ghost var tail := ids[i..];
      assert ts[..t + 1] == ts[..t] + [ts[t]];
      r, i := StoreToken(ids, nNodes, i, ts[t]);
      if !r.Done? {
        StoredIs(ts, nNodes, t);
        if r.Refused? { Unstored(ts, nNodes, t); } else { StoredIs(ts, nNodes, t + 1); }
        return r, [];
      }
      t := t + 1;
    }
    assert ts[..t] == ts;
    StoredInside(ts, nNodes);
    r, nodeIDs := Done, ids[..];
    assert nodeIDs == ids[..i] + ids[i..];
  }

  /** A line with a bad prefix is bad. */
  lemma Unstored(ts: seq<Token>, nNodes: nat, t: nat)
    requires t < |ts| && !LineOk(ts[..t + 1], nNodes)
    ensures !LineOk(ts, nNodes)
  {
    if LineOk(ts, nNodes) { LinePrefix(ts, nNodes, t + 1); }
  }

  lemma NothingListed(ts: seq<Token>)
    ensures Listed(ts[..0]) == []
  { }

  // ---------- The whole file: a permutation of the ranks ----------

  /** All ids, machine after machine */
  function Flat(macs: seq<seq<int>>): seq<int> {
    if macs == [] then [] else Flat(macs[..|macs| - 1]) + macs[|macs| - 1]
  }

  /** Where the ids of machine `i` start */
  function Off(macs: seq<seq<int>>, i: nat): nat
    requires i <= |macs|
  { |Flat(macs[..i])| }

  lemma {:induction false} FlatAt(macs: seq<seq<int>>, i: nat, j: nat)
    requires i < |macs| && j < |macs[i]|
    ensures Off(macs, i) + j < |Flat(macs)| && Flat(macs)[Off(macs, i) + j] == macs[i][j]
    ensures Off(macs, i + 1) == Off(macs, i) + |macs[i]|
  {
    var n := |macs| - 1;
    assert macs[..i + 1][..i] == macs[..i];
    if i < n {
      FlatAt(macs[..n], i, j);
      assert macs[..n][..i] == macs[..i];
    }
  }

  /** Every place of the flat list is a node of a machine. */
  lemma {:induction false} FlatFrom(macs: seq<seq<int>>, p: nat) returns (i: nat, j: nat)
    requires p < |Flat(macs)|
    ensures i < |macs| && j < |macs[i]| && p == Off(macs, i) + j
  {
    var n := |macs| - 1;
    if p < |Flat(macs[..n])| {
      i, j := FlatFrom(macs[..n], p);
      assert macs[..n][..i] == macs[..i];
    } else {
      i, j := n, p - |Flat(macs[..n])|;
    }
  }

  lemma {:induction false} FlatUpdate(macs: seq<seq<int>>, i: nat, j: nat, v: int)
    requires i < |macs| && j < |macs[i]|
    ensures Off(macs, i) + j < |Flat(macs)|
    ensures Flat(macs[i := macs[i][j := v]]) == Flat(macs)[Off(macs, i) + j := v]
  {
    var n := |macs| - 1;
    var next := macs[i := macs[i][j := v]];
    if i < n {
      FlatUpdate(macs[..n], i, j, v);
      assert next[..n] == macs[..n][i := macs[i][j := v]];
      assert macs[..n][..i] == macs[..i];
    } else {
      assert next[..n] == macs[..n];
    }
  }

  /** No id is given twice. */
  predicate NoTwice(fl: seq<int>) { forall p, q :: 0 <= p < q < |fl| && fl[p] != NONE ==> fl[p] != fl[q] }

  /** What the file must say: ids below the number of nodes, and none twice */
  predicate FileOk(fl: seq<int>) { NoTwice(fl) && forall p :: 0 <= p < |fl| ==> fl[p] < |fl| }

  /** Each rank from 0 on is exactly once in the list. */
  predicate IsPermutation(fl: seq<int>) {
    && (forall p :: 0 <= p < |fl| ==> 0 <= fl[p] < |fl|)
    && (forall p, q :: 0 <= p < q < |fl| ==> fl[p] != fl[q])
    && (forall r :: 0 <= r < |fl| ==> r in fl)
  }

  /** `now` is `was` with open places filled, in increasing order. */
  predicate Fills(was: seq<int>, now: seq<int>) {
    && |now| == |was| && (forall p :: 0 <= p < |was| && was[p] != NONE ==> now[p] == was[p])
    && (forall p, q :: 0 <= p < q < |was| && was[p] == NONE && was[q] == NONE && now[q] != NONE ==> now[p] < now[q])
  }

  /** So there is only one way to fill all places: what the file says determines every id. */
  lemma FillsOneWay(was: seq<int>, a: seq<int>, b: seq<int>)
    requires Fills(was, a) && Fills(was, b) && IsPermutation(a) && IsPermutation(b)
    ensures a == b
  {
    SameUpto(was, a, b, |was|);
  }

  lemma {:induction false} SameUpto(was: seq<int>, a: seq<int>, b: seq<int>, p: nat)
    requires Fills(was, a) && Fills(was, b) && IsPermutation(a) && IsPermutation(b) && p <= |was|
    ensures a[..p] == b[..p]
  {
    if p > 0 {
      SameUpto(was, a, b, p - 1);
      forall q | 0 <= q < p - 1 ensures a[q] == b[q] { assert a[..p - 1][q] == b[..p - 1][q]; }
      NotBefore(was, a, b, p - 1);
      NotBefore(was, b, a, p - 1);
      assert a[..p] == a[..p - 1] + [a[p - 1]] && b[..p] == b[..p - 1] + [b[p - 1]];
    }
  }

  lemma NotBefore(was: seq<int>, a: seq<int>, b: seq<int>, p: nat)
    requires Fills(was, a) && Fills(was, b) && IsPermutation(a) && IsPermutation(b) && p < |was|
    requires forall q :: 0 <= q < p ==> a[q] == b[q]
    ensures b[p] <= a[p]
  {
    if a[p] < b[p] {
      assert a[p] in b;
      var q :| 0 <= q < |b| && b[q] == a[p];
      assert false;
    }
  }

  // ---------- Pigeonhole ----------

  function Given(fl: seq<int>): set<int> { set p | 0 <= p < |fl| && fl[p] != NONE :: fl[p] }

  /** Different ids are as many as the places that hold one, so fewer than the places if one is open. */
  lemma {:induction false} GivenSize(fl: seq<int>)
    requires NoTwice(fl)
    ensures |Given(fl)| <= |fl| && (|Given(fl)| == |fl| ==> NONE !in fl) && (NONE !in fl ==> |Given(fl)| == |fl|)
  {
    if fl != [] {
      var n := |fl| - 1;
      var front := fl[..n];
      GivenSize(front);
      assert forall p :: 0 <= p < n ==> fl[p] == front[p];
      if fl[n] == NONE {
        assert Given(fl) == Given(front);
        assert NONE in fl;
      } else {
        assert fl[n] !in Given(front);
        assert Given(fl) == Given(front) + {fl[n]};
        assert NONE in fl ==> NONE in front;
        assert NONE in front ==> NONE in fl;
      }
    }
  }

  function Ranks(n: nat): (r: set<int>)
    ensures |r| == n && forall k :: k in r <==> 0 <= k < n
  { if n == 0 then {} else Ranks(n - 1) + {n - 1} }

  lemma SubsetSize(a: set<int>, b: set<int>)
    requires a <= b
    ensures |a| <= |b| && (|a| == |b| ==> a == b)
  {
    var c := b - a;
    assert b == a + c;
    assert |b| == |a| + |c|;
    assert c == {} ==> a == b;
  }

  /** While a place is open, some rank is free. */
  lemma FreeRank(fl: seq<int>) returns (r: int)
    requires FileOk(fl) && NONE in fl
    ensures 0 <= r < |fl| && r !in Given(fl)
  {
    GivenSize(fl);
    if Ranks(|fl|) <= Given(fl) { SubsetSize(Ranks(|fl|), Given(fl)); }
    r :| r in Ranks(|fl|) && r !in Given(fl);
  }

  /** With no place open the ids are a permutation. */
  lemma FullIsPermutation(fl: seq<int>)
    requires FileOk(fl) && NONE !in fl && forall p :: 0 <= p < |fl| ==> fl[p] >= 0
    ensures IsPermutation(fl)
  {
    GivenSize(fl);
    assert Given(fl) <= Ranks(|fl|);
    SubsetSize(Given(fl), Ranks(|fl|));
    forall r | 0 <= r < |fl| ensures r in fl { assert r in Given(fl); }
  }

  // ---------- Checking and filling ----------

  /** What `parse_one_line` leaves: ids first, open places behind them */
  predicate Prefixed(ids: seq<int>) {
    && (forall j :: 0 <= j < |ids| ==> ids[j] >= NONE)
    && (forall j, l :: 0 <= j < l < |ids| && ids[j] == NONE ==> ids[l] == NONE)
  }

  lemma ParsedIsPrefixed(ts: seq<Token>, nNodes: nat)
    requires LineOk(ts, nNodes)
    ensures Prefixed(Table(Listed(ts), nNodes))
  {
    ListedGrows(ts, 0);
    var L := Listed(ts);
    assert forall j :: 0 <= j < |L| ==> L[j] in L;
  }

  lemma GivenNext(fl: seq<int>, p: nat)
    requires p < |fl|
    ensures Given(fl[..p + 1]) == Given(fl[..p]) + (if fl[p] == NONE then {} else {fl[p]})
    ensures forall r :: r in Given(fl[..p]) <==> r != NONE && exists q :: 0 <= q < p && fl[q] == r
  {
    var here, next := fl[..p], fl[..p + 1];
    forall r | r in Given(here) ensures r in Given(next) {
      var q :| 0 <= q < p && here[q] == r;
      assert next[q] == r;
    }
    if fl[p] != NONE { assert next[p] == fl[p]; }
    forall r | r in Given(next) ensures r in Given(here) || (fl[p] != NONE && r == fl[p]) {
      var q :| 0 <= q < p + 1 && next[q] == r;
      if q < p { assert here[q] == r; }
    }
    forall r, q | r != NONE && 0 <= q < p && fl[q] == r ensures r in Given(fl[..p]) { assert fl[..p][q] == r; }
  }

  /** Open places add nothing. */
  lemma {:induction false} GivenSkip(fl: seq<int>, p: nat, q: nat)
    requires p <= q <= |fl| && forall x :: p <= x < q ==> fl[x] == NONE
    ensures Given(fl[..q]) == Given(fl[..p])
  {
    if p < q {
      GivenSkip(fl, p, q - 1);
      GivenNext(fl, q - 1);
    }
  }

  lemma GivenFill(fl: seq<int>, p: nat, k: int)
    requires FileOk(fl) && p < |fl| && fl[p] == NONE && 0 <= k < |fl| && k !in Given(fl)
    ensures FileOk(fl[p := k]) && Given(fl[p := k]) == Given(fl) + {k}
  {
    var next := fl[p := k];
    assert forall q :: 0 <= q < |fl| && fl[q] != NONE ==> fl[q] in Given(fl);
    assert next[p] == k;
    forall r | r in Given(fl) ensures r in Given(next) {
      var q :| 0 <= q < |fl| && fl[q] != NONE && fl[q] == r;
      assert next[q] == r;
    }
  }

  /** The `used` array says which ids are given in the first `p` places. */
  ghost predicate Marks(used: array<bool>, fl: seq<int>, p: nat)
    reads used
    requires p <= |fl|
  {
    used.Length == |fl| && forall r :: 0 <= r < |fl| ==> (used[r] <==> r in Given(fl[..p]))
  }

  predicate OkUpto(fl: seq<int>, p: nat) requires p <= |fl| {
    NoTwice(fl[..p]) && forall q :: 0 <= q < p ==> fl[q] < |fl|
  }

  /** The inner checking loop, for machine `i`: its ids are new and not too large. */
  method CheckMachine(macs: seq<seq<int>>, i: nat, used: array<bool>) returns (r: Outcome)
    requires i < |macs| && forall m :: 0 <= m < |macs| ==> Prefixed(macs[m])
    requires Off(macs, i) <= |Flat(macs)| && Marks(used, Flat(macs), Off(macs, i)) && OkUpto(Flat(macs), Off(macs, i))
    modifies used
    ensures Off(macs, i + 1) <= |Flat(macs)|
    ensures r.Done? ==> Marks(used, Flat(macs), Off(macs, i + 1)) && OkUpto(Flat(macs), Off(macs, i + 1))
    ensures r.Refused? ==> !FileOk(Flat(macs))
    ensures r.Overrun? ==> |macs[i]| > NETQ_MAX_NODES_PER_HOST
  {
    hide Flat;
    ghost var fl, off := Flat(macs), Off(macs, i);
    OffNext(macs, i);
    var j := 0;
    while j < |macs[i]|
      invariant 0 <= j <= |macs[i]| && Marks(used, fl, off + j) && OkUpto(fl, off + j)
    {
      if j >= NETQ_MAX_NODES_PER_HOST { return Overrun; }
      FlatAt(macs, i, j);
      GivenNext(fl, off + j);
      var id := macs[i][j];
      if id >= used.Length || (id != NONE && used[id]) { return Refused; }
      if id == NONE { break; }
      CheckedNext(fl, off + j);
      hide OkUpto, Prefixed;
      used[id] := true;
      j := j + 1;
    }
    RestOpen(macs, i, j);
    RestChecked(fl, off + j, off + |macs[i]|);
    r := Done;
  }

  /** An id that is new and not too large is right. */
  lemma CheckedNext(fl: seq<int>, p: nat)
    requires p < |fl| && OkUpto(fl, p) && fl[p] < |fl| && fl[p] !in Given(fl[..p])
    ensures OkUpto(fl, p + 1)
  {
    GivenNext(fl, p);
    var next := fl[..p + 1];
    forall x, y | 0 <= x < y < p + 1 && next[x] != NONE ensures next[x] != next[y] {
      if y < p { assert fl[..p][x] != fl[..p][y]; } else { assert fl[x] in Given(fl[..p]); }
    }
  }

  lemma RestChecked(fl: seq<int>, p: nat, q: nat)
    requires p <= q <= |fl| && OkUpto(fl, p) && forall x :: p <= x < q ==> fl[x] == NONE
    ensures OkUpto(fl, q) && Given(fl[..q]) == Given(fl[..p])
  {
    GivenSkip(fl, p, q);
    var next := fl[..q];
    forall x, y | 0 <= x < y < q && next[x] != NONE ensures next[x] != next[y] {
      if y < p { assert fl[..p][x] != fl[..p][y]; }
    }
  }

  lemma OffNext(macs: seq<seq<int>>, i: nat)
    requires i < |macs|
    ensures Off(macs, i + 1) == Off(macs, i) + |macs[i]| <= |Flat(macs)|
  {
    assert macs[..i + 1][..i] == macs[..i];
    OffGrows(macs, i + 1);
  }

  lemma {:induction false} OffGrows(macs: seq<seq<int>>, i: nat)
    requires i <= |macs|
    ensures Off(macs, i) <= |Flat(macs)|
    ensures i == |macs| ==> Off(macs, i) == |Flat(macs)|
  {
    if i < |macs| {
      var n := |macs| - 1;
      OffGrows(macs[..n], i);
      assert macs[..n][..i] == macs[..i];
    } else {
      assert macs[..i] == macs;
    }
  }

  /** Behind the first open place of a machine all its places are open. */
  lemma RestOpen(macs: seq<seq<int>>, i: nat, j: nat)
    requires i < |macs| && j <= |macs[i]| && Prefixed(macs[i]) && (j < |macs[i]| ==> macs[i][j] == NONE)
    ensures Off(macs, i) + |macs[i]| <= |Flat(macs)|
    ensures forall x :: Off(macs, i) + j <= x < Off(macs, i) + |macs[i]| ==> Flat(macs)[x] == NONE
  {
    OffNext(macs, i);
    forall x | Off(macs, i) + j <= x < Off(macs, i) + |macs[i]| ensures Flat(macs)[x] == NONE {
      FlatAt(macs, i, x - Off(macs, i));
    }
  }

  /** Every id at least NONE: what the lines of a file give */
  lemma FlatBounded(macs: seq<seq<int>>, p: nat)
    requires p < |Flat(macs)| && forall m :: 0 <= m < |macs| ==> Prefixed(macs[m])
    ensures Flat(macs)[p] >= NONE
  {
    var i, j := FlatFrom(macs, p);
    FlatAt(macs, i, j);
  }

  /** What the filling has reached at place `p`: all before are filled, and `used` and `k` are up to date. */
  ghost predicate FilledUpto(used: array<bool>, fl: seq<int>, was: seq<int>, p: nat, k: nat)
    reads used
  {
    && p <= |fl| && FileOk(fl) && Fills(was, fl) && (forall q :: 0 <= q < |fl| ==> fl[q] >= NONE)
    && (forall q :: 0 <= q < p ==> fl[q] != NONE && (was[q] == NONE ==> fl[q] <= k))
    && (forall q :: p <= q < |fl| ==> fl[q] == was[q])
    && used.Length == |fl| && (forall r :: 0 <= r < |fl| ==> (used[r] <==> r in Given(fl)))
    && (forall r :: 0 <= r < k && r < |fl| ==> used[r])
  }

  /** One open place is given the next free rank; the search for it stays inside the array. */
  method FillOne(used: array<bool>, ghost fl: seq<int>, ghost was: seq<int>, ghost p: nat, k: nat) returns (k': nat)
    requires p < |fl| && fl[p] == NONE && FilledUpto(used, fl, was, p, k)
    modifies used
    ensures k' < |fl| && FilledUpto(used, fl[p := k'], was, p + 1, k')
  {
    ghost var r := FreeRank(fl);
    k' := k;
    while used[k']
      invariant k <= k' <= r
      invariant forall x :: 0 <= x < k' ==> used[x]
      decreases used.Length - k'
    {
      k' := k' + 1;
    }
    GivenFill(fl, p, k');
    used[k'] := true;
  }

  /** Every machine has a place in its table for each of its nodes. */
  predicate Roomy(macs: seq<seq<int>>) { forall m :: 0 <= m < |macs| ==> |macs[m]| <= NETQ_MAX_NODES_PER_HOST }

  /** The checking loops of `netq_parseGrpFile` */
  method CheckIds(macs: array<seq<int>>, used: array<bool>) returns (r: Outcome)
    requires forall m :: 0 <= m < macs.Length ==> Prefixed(macs[m])
    requires used.Length == |Flat(macs[..])| && forall k :: 0 <= k < used.Length ==> !used[k]
    modifies used
    ensures r.Done? ==> Marks(used, Flat(macs[..]), |Flat(macs[..])|) && FileOk(Flat(macs[..]))
    ensures r.Refused? ==> !FileOk(Flat(macs[..]))
    ensures r.Overrun? ==> !Roomy(macs[..])
  {
    ghost var was := Flat(macs[..]);
    for i := 0 to macs.Length
      invariant Off(macs[..], i) <= |was| && Marks(used, was, Off(macs[..], i)) && OkUpto(was, Off(macs[..], i))
    {
      r := CheckMachine(macs[..], i, used);
      if !r.Done? {
        assert |macs[i]| == |macs[..][i]|;
        return;
      }
    }
    OffGrows(macs[..], macs.Length);
    assert was[..|was|] == was;
    r := Done;
  }

  /** Each machine keeps its number of nodes. */
  predicate SameSizes(was: seq<seq<int>>, now: seq<seq<int>>) {
    |now| == |was| && forall m :: 0 <= m < |was| ==> |now[m]| == |was[m]|
  }

  lemma SizesKept(was: seq<seq<int>>, now: seq<seq<int>>, i: nat, ids: seq<int>)
    requires SameSizes(was, now) && i < |now| && |ids| == |now[i]|
    ensures SameSizes(was, now[i := ids]) && |ids| == |was[i]|
  { }

  /** The filling loops */
  method FillIds(macs: array<seq<int>>, used: array<bool>) returns (r: Outcome)
    requires FileOk(Flat(macs[..])) && Marks(used, Flat(macs[..]), |Flat(macs[..])|)
    requires forall p :: 0 <= p < |Flat(macs[..])| ==> Flat(macs[..])[p] >= NONE
    modifies macs, used
    ensures r == if old(Roomy(macs[..])) then Done else Overrun
    ensures r.Done? ==> IsPermutation(Flat(macs[..])) && Fills(Flat(old(macs[..])), Flat(macs[..]))
    ensures SameSizes(old(macs[..]), macs[..])
  {
    ghost var before, was := macs[..], Flat(macs[..]);
    FilledStart(used, was);
    hide FilledUpto, Flat, FileOk, Fills, IsPermutation, SameSizes;
    var k := 0;
    SizesSame(before);
    for i := 0 to macs.Length
      invariant Off(macs[..], i) <= |Flat(macs[..])| && FilledUpto(used, Flat(macs[..]), was, Off(macs[..], i), k)
      invariant SameSizes(before, macs[..]) && |before| == macs.Length
      invariant forall m :: 0 <= m < i ==> |before[m]| <= NETQ_MAX_NODES_PER_HOST
    {
      ghost var now := macs[..];
      OffNext(now, i);
      r, k := FillMachine(macs, i, used, was, k);
      SizesKept(before, now, i, macs[i]);
      if !r.Done? { return; }
      OffNext(macs[..], i);
    }
    OffGrows(macs[..], macs.Length);
    FilledEnd(used, Flat(macs[..]), was, k);
    r := Done;
  }

  lemma SizesSame(ms: seq<seq<int>>)
    ensures SameSizes(ms, ms)
  { }

  lemma FilledStart(used: array<bool>, fl: seq<int>)
    requires FileOk(fl) && Marks(used, fl, |fl|) && forall p :: 0 <= p < |fl| ==> fl[p] >= NONE
    ensures FilledUpto(used, fl, fl, 0, 0)
  {
    assert fl[..|fl|] == fl;
  }

  lemma FilledEnd(used: array<bool>, fl: seq<int>, was: seq<int>, k: nat)
    requires FilledUpto(used, fl, was, |fl|, k)
    ensures IsPermutation(fl) && Fills(was, fl)
  {
    FullIsPermutation(fl);
  }

  /**
   * The check and the filling of `netq_parseGrpFile`: done exactly when the
   * ids are right and every node has its place in the table.
   */
  method AssignIds(macs: array<seq<int>>) returns (r: Outcome)
    requires forall m :: 0 <= m < macs.Length ==> Prefixed(macs[m])
    modifies macs
    ensures r.Done? <==> FileOk(Flat(old(macs[..]))) && old(Roomy(macs[..]))
    ensures r.Refused? ==> !FileOk(Flat(old(macs[..])))
    ensures r.Overrun? ==> !old(Roomy(macs[..]))
    ensures r.Done? ==> IsPermutation(Flat(macs[..])) && Fills(Flat(old(macs[..])), Flat(macs[..]))
    ensures SameSizes(old(macs[..]), macs[..])
    ensures r.Refused? ==> macs[..] == old(macs[..])
  {
    var total := TotalNodes(macs);
    var used := new bool[total](k => false);
    r := CheckIds(macs, used);
    if r.Done? {
      forall q | 0 <= q < |Flat(macs[..])| ensures Flat(macs[..])[q] >= NONE { FlatBounded(macs[..], q); }
      r := FillIds(macs, used);
    }
  }

  /** `total`, as the reading loop adds it up */
  method TotalNodes(macs: array<seq<int>>) returns (total: nat)
    ensures total == |Flat(macs[..])|
  {
    total := 0;
    for i := 0 to macs.Length
      invariant total == Off(macs[..], i)
    {
      OffNext(macs[..], i);
      total := total + |macs[i]|;
    }
    OffGrows(macs[..], macs.Length);
  }

  lemma FilledSkip(used: array<bool>, fl: seq<int>, was: seq<int>, p: nat, k: nat)
    requires FilledUpto(used, fl, was, p, k) && p < |fl| && fl[p] != NONE
    ensures FilledUpto(used, fl, was, p + 1, k)
  { }

  /** The inner filling loop, for machine `i` */
  method FillMachine(macs: array<seq<int>>, i: nat, used: array<bool>, ghost was: seq<int>, k0: nat) returns (r: Outcome, k: nat)
    requires i < macs.Length && Off(macs[..], i) + |macs[i]| <= |Flat(macs[..])|
    requires FilledUpto(used, Flat(macs[..]), was, Off(macs[..], i), k0)
    modifies macs, used
    ensures macs[..] == old(macs[..])[i := macs[i]] && |macs[i]| == |old(macs[i])|
    ensures Off(macs[..], i) == old(Off(macs[..], i)) && Off(macs[..], i) + |macs[i]| <= |Flat(macs[..])|
    ensures r == if |macs[i]| <= NETQ_MAX_NODES_PER_HOST then Done else Overrun
    ensures r.Done? ==> FilledUpto(used, Flat(macs[..]), was, Off(macs[..], i) + |macs[i]|, k)
  {
    hide FilledUpto, Flat;
    k := k0;
    ghost var off := Off(macs[..], i);
    var n := |macs[i]|;
    for j := 0 to n
      invariant macs[..] == old(macs[..])[i := macs[i]] && |macs[i]| == n
      invariant Off(macs[..], i) == off && off + n <= |Flat(macs[..])|
      invariant FilledUpto(used, Flat(macs[..]), was, off + j, k)
      invariant j <= NETQ_MAX_NODES_PER_HOST
    {
      if j >= NETQ_MAX_NODES_PER_HOST { return Overrun, k; }
      FlatAt(macs[..], i, j);
      if macs[i][j] == NONE {
        ghost var before := macs[..];
        FlatUpdate(before, i, j, 0);
        k := FillOne(used, Flat(macs[..]), was, off + j, k);
        FlatUpdate(before, i, j, k);
        macs[i] := macs[i][j := k];
        assert macs[..] == before[i := before[i][j := k]];
        assert macs[..][..i] == before[..i];
      } else {
        FilledSkip(used, Flat(macs[..]), was, off + j, k);
      }
    }
    r := Done;
  }

  // ---------- The file ----------

  /** A line without its comment: nothing, no host or no number of nodes, or a machine */
  datatype Line = Blank | Malformed | Entry(nNodes: nat, ts: seq<Token>)

  /** The lines that count */
  function Entries(lines: seq<Line>): (r: seq<Line>)
    ensures forall l :: l in r ==> !l.Blank?
  {
    if lines == [] then []
    else Entries(lines[..|lines| - 1]) + (if lines[|lines| - 1].Blank? then [] else [lines[|lines| - 1]])
  }

  predicate Accepted(l: Line) { l.Entry? && LineOk(l.ts, l.nNodes) }

  predicate AllAccepted(es: seq<Line>) { forall k :: 0 <= k < |es| ==> Accepted(es[k]) }

  /** What the machines are to hold, if the tables have room for it */
  function Tables(es: seq<Line>): seq<seq<int>>
    requires AllAccepted(es)
  { seq(|es|, k requires 0 <= k < |es| => Table(Listed(es[k].ts), es[k].nNodes)) }

  /** The tables of the code have room for the file. */
  predicate Fits(es: seq<Line>) {
    |es| <= NETQ_MAX_NODES && forall k :: 0 <= k < |es| && es[k].Entry? ==> es[k].nNodes <= NETQ_MAX_NODES_PER_HOST
  }

  lemma {:induction false} EntriesGrow(lines: seq<Line>, i: nat)
    requires i <= |lines|
    ensures Entries(lines[..i]) <= Entries(lines)
    ensures i < |lines| ==> Entries(lines[..i + 1]) == Entries(lines[..i]) + (if lines[i].Blank? then [] else [lines[i]])
  {
    if i < |lines| {
      assert lines[..i + 1][..i] == lines[..i];
      var n := |lines| - 1;
      EntriesGrow(lines[..n], i);
      assert lines[..n][..i] == lines[..i];
    } else {
      assert lines[..i] == lines;
    }
  }

  /** `parse_one_line`: the number of nodes and the table of a machine, seen as one place for each node */
  method ParseLine(l: Line) returns (r: Outcome, mac: seq<int>)
    requires !l.Blank?
    ensures r.Refused? ==> !Accepted(l)
    ensures r.Overrun? ==> l.Entry? && l.nNodes > NETQ_MAX_NODES_PER_HOST
    ensures r.Done? ==> Accepted(l) && mac == Table(Listed(l.ts), l.nNodes)
  {
    if l.Malformed? { return Refused, []; }
    var ids;
    r, ids := ParseIds(l.ts, l.nNodes);
    StoredInside(l.ts, l.nNodes);
    if r.Done? {
      mac := if l.nNodes <= |ids| then ids[..l.nNodes] else Table(ids, l.nNodes);
    } else {
      mac := [];
    }
  }

  /** The reading loop of `netq_parseGrpFile` */
  method ReadLines(lines: seq<Line>) returns (r: Outcome, macs: seq<seq<int>>)
    ensures r.Refused? ==> !AllAccepted(Entries(lines))
    ensures r.Overrun? ==> !Fits(Entries(lines))
    ensures r.Done? ==> |Entries(lines)| <= NETQ_MAX_NODES && AllAccepted(Entries(lines)) && macs == Tables(Entries(lines))
  {
    hide Entries, Accepted, Table, Listed;
    macs := [];
    NoEntries(lines);
    for i := 0 to |lines|
      invariant |Entries(lines[..i])| <= NETQ_MAX_NODES && AllAccepted(Entries(lines[..i])) && macs == Tables(Entries(lines[..i]))
    {
      EntriesGrow(lines, i);
      EntriesGrow(lines, i + 1);
      ghost var es, more := Entries(lines), Entries(lines[..i + 1]);
      if lines[i].Blank? { continue; }
      assert es[|macs|] == more[|macs|] == lines[i];
      var mac;
      r, mac := ParseLine(lines[i]);
      if |macs| >= NETQ_MAX_NODES { return Overrun, macs; }
      if !r.Done? { return r, macs; }
      macs := macs + [mac];
      assert macs == Tables(more);
    }
    assert lines[..|lines|] == lines;
    r := Done;
  }

  lemma NoEntries(lines: seq<Line>)
    ensures Entries(lines[..0]) == []
  { }

  /**
   * `netq_parseGrpFile`.  A file is taken exactly when every line is right, the
   * ids of all lines together are, and the tables have room; then the ids are
   * a permutation of the ranks that keeps those of the file.  Of a file that is
   * right, the code leaves its tables exactly when they have no room for it.
   */
  method ParseGrpFile(lines: seq<Line>) returns (r: Outcome, macList: seq<seq<int>>)
    ensures var es := Entries(lines);
      && (r.Done? <==> Fits(es) && AllAccepted(es) && FileOk(Flat(Tables(es))))
      && (r.Refused? ==> !(AllAccepted(es) && FileOk(Flat(Tables(es)))))
      && (r.Overrun? ==> !Fits(es))
      && (r.Done? ==> Taken(es, macList))
  {
    hide Entries, Accepted, Flat, Table, Listed;
    var macs;
    r, macs := ReadLines(lines);
    if !r.Done? { return r, []; }
    ghost var es := Entries(lines);
    var list := new seq<int>[|macs|](k requires 0 <= k < |macs| => macs[k]);
    assert list[..] == macs;
    TablesPrefixed(es);
    r := AssignIds(list);
    macList := if r.Done? then list[..] else [];
    if r.Done? { TakenFrom(es, macList); }
  }

  /** What a file that is taken gives: a permutation of the ranks, with the nodes and the ids of the file */
  predicate Taken(es: seq<Line>, macList: seq<seq<int>>) {
    && AllAccepted(es) && |macList| == |es| && (forall k :: 0 <= k < |es| ==> |macList[k]| == es[k].nNodes)
    && IsPermutation(Flat(macList)) && Fills(Flat(Tables(es)), Flat(macList))
  }

  lemma TablesPrefixed(es: seq<Line>)
    requires AllAccepted(es)
    ensures forall k :: 0 <= k < |es| ==> Prefixed(Tables(es)[k]) && |Tables(es)[k]| == es[k].nNodes
    ensures |es| <= NETQ_MAX_NODES ==> (Roomy(Tables(es)) <==> Fits(es))
  {
    forall k | 0 <= k < |es| ensures Prefixed(Tables(es)[k]) && |Tables(es)[k]| == es[k].nNodes {
      assert Accepted(es[k]);
      ParsedIsPrefixed(es[k].ts, es[k].nNodes);
    }
    assert forall k :: 0 <= k < |es| ==> Accepted(es[k]);
  }

  lemma TakenFrom(es: seq<Line>, macList: seq<seq<int>>)
    requires AllAccepted(es) && |macList| == |es| && IsPermutation(Flat(macList)) && Fills(Flat(Tables(es)), Flat(macList))
    requires forall k :: 0 <= k < |es| ==> |macList[k]| == |Tables(es)[k]|
    ensures Taken(es, macList)
  {
    TablesPrefixed(es);
  }

  // ---------- The tables ----------

  datatype IdEntry = IdEntry(macID: nat, localID: nat)

  /** The machine and the local rank name a node. */
  predicate Node(macs: seq<seq<int>>, e: IdEntry) { e.macID < |macs| && e.localID < |macs[e.macID]| }

  /** Different nodes have different ranks. */
  lemma NodesDiffer(macs: seq<seq<int>>, e: IdEntry, f: IdEntry)
    requires IsPermutation(Flat(macs)) && Node(macs, e) && Node(macs, f)
    ensures 0 <= macs[e.macID][e.localID] < |Flat(macs)|
    ensures macs[e.macID][e.localID] == macs[f.macID][f.localID] ==> e == f
  {
    FlatAt(macs, e.macID, e.localID);
    FlatAt(macs, f.macID, f.localID);
    if e.macID < f.macID { OffBefore(macs, e.macID, f.macID); }
    if f.macID < e.macID { OffBefore(macs, f.macID, e.macID); }
  }

  lemma {:induction false} OffBefore(macs: seq<seq<int>>, i: nat, j: nat)
    requires i < j < |macs|
    ensures Off(macs, i) + |macs[i]| <= Off(macs, j)
  {
    OffNext(macs, j - 1);
    if i < j - 1 { OffBefore(macs, i, j - 1); }
  }

  /** The table leads from every rank that a node has to that node. */
  ghost predicate TableOk(macs: seq<seq<int>>, g: seq<IdEntry>) {
    && |g| == |Flat(macs)|
    && forall m, l :: 0 <= m < |macs| && 0 <= l < |macs[m]| ==> EntryOk(macs, g, m, l)
  }

  predicate EntryOk(macs: seq<seq<int>>, g: seq<IdEntry>, m: nat, l: nat)
    requires m < |macs| && l < |macs[m]|
  { 0 <= macs[m][l] < |g| && g[macs[m][l]] == IdEntry(m, l) }

  /** For a permutation the table is the inverse of the ids, both ways: `machines[macID].nodeIDs[localID] == rank`. */
  lemma TableInverse(macs: seq<seq<int>>, g: seq<IdEntry>, r: nat)
    requires IsPermutation(Flat(macs)) && TableOk(macs, g) && r < |g|
    ensures Node(macs, g[r]) && macs[g[r].macID][g[r].localID] == r
    ensures forall e :: Node(macs, e) ==> (macs[e.macID][e.localID] == r <==> g[r] == e)
  {
    assert r in Flat(macs);
    var p: nat :| p < |Flat(macs)| && Flat(macs)[p] == r;
    var i, j := FlatFrom(macs, p);
    FlatAt(macs, i, j);
    assert EntryOk(macs, g, i, j);
    forall e | Node(macs, e) ensures macs[e.macID][e.localID] == r <==> g[r] == e { assert EntryOk(macs, g, e.macID, e.localID); }
  }

  /** Every node is in the table. */
  lemma NotInTable(macs: seq<seq<int>>, g: seq<IdEntry>, e: IdEntry)
    requires TableOk(macs, g) && forall k :: 0 <= k < |g| ==> g[k] != e
    ensures !Node(macs, e)
  {
    assert Node(macs, e) ==> EntryOk(macs, g, e.macID, e.localID);
  }

  class NetqInfo {
    var gTable: array?<IdEntry>
    var gTableSize: int
    var lTable: array?<int>
    var lTableSize: int
    ghost var machines: seq<seq<int>>
    ghost var my: nat

    ghost predicate Valid()
      reads this, gTable, lTable
    {
      (gTableSize == -1 && lTableSize == -1 && gTable == null && lTable == null)
      || (gTable != null && lTable != null && gTableSize == gTable.Length && lTableSize == lTable.Length
          && my < |machines| && IsPermutation(Flat(machines)) && TableOk(machines, gTable[..]) && lTable[..] == machines[my])
    }

    ghost predicate Started()
      reads this
    { gTable != null }

    /** Before `netq_start` */
    constructor ()
      ensures Valid() && !Started()
    { gTable, gTableSize, lTable, lTableSize, machines, my := null, -1, null, -1, [], 0; }

    /** The part of `netq_start` that builds the rank tables */
    method Start(macs: seq<seq<int>>, my_mac_id: nat)
      requires Valid() && IsPermutation(Flat(macs)) && my_mac_id < |macs|
      modifies this
      ensures Valid() && Started() && machines == macs && my == my_mac_id && fresh(gTable) && fresh(lTable)
    {
      var total := 0;
      for i := 0 to |macs|
        invariant total == Off(macs, i)
      {
        OffNext(macs, i);
        total := total + |macs[i]|;
      }
      OffGrows(macs, |macs|);
      var g := new IdEntry[total](k => IdEntry(0, 0));
      var loc := new int[|macs[my_mac_id]|];
      for i := 0 to |macs|
        invariant my_mac_id < i ==> loc[..] == macs[my_mac_id]
        invariant forall m, l :: 0 <= m < i && 0 <= l < |macs[m]| ==> EntryOk(macs, g[..], m, l)
      {
        if my_mac_id == i {
          ghost var before := g[..];
          forall k | 0 <= k < loc.Length { loc[k] := macs[my_mac_id][k]; }
          assert loc[..] == macs[my_mac_id] && g[..] == before;
        }
        for j := 0 to |macs[i]|
          invariant my_mac_id <= i ==> loc[..] == macs[my_mac_id]
          invariant forall m, l :: 0 <= m < i && 0 <= l < |macs[m]| ==> EntryOk(macs, g[..], m, l)
          invariant forall l :: 0 <= l < j ==> EntryOk(macs, g[..], i, l)
        {
          NodesDiffer(macs, IdEntry(i, j), IdEntry(i, j));
          ghost var before := g[..];
          g[macs[i][j]] := IdEntry(i, j);
          forall m, l | 0 <= m <= i && 0 <= l < |macs[m]| && (m < i || l < j) ensures EntryOk(macs, g[..], m, l) {
            assert EntryOk(macs, before, m, l);
            NodesDiffer(macs, IdEntry(i, j), IdEntry(m, l));
          }
        }
      }
      gTable, gTableSize, lTable, lTableSize := g, total, loc, |macs[my_mac_id]|;
      machines, my := macs, my_mac_id;
    }

    /** The start from a group file; a file that is not taken leaves the tables alone. */
    method StartFromFile(lines: seq<Line>, my_mac_id: nat) returns (r: Outcome)
      requires Valid() && my_mac_id < |Entries(lines)|
      modifies this
      ensures Valid()
      ensures var es := Entries(lines);
        r.Done? <==> Fits(es) && AllAccepted(es) && FileOk(Flat(Tables(es)))
      ensures r.Done? ==> Started() && my == my_mac_id && Taken(Entries(lines), machines)
      ensures !r.Done? ==> gTable == old(gTable) && lTable == old(lTable) && machines == old(machines)
    {
      hide Entries, Flat;
      var macList;
      r, macList := ParseGrpFile(lines);
      if r.Done? { Start(macList, my_mac_id); }
    }

    /** `netq_transGlobalRank` */
    method TransGlobalRank(grank: int) returns (ret: int, lrank: IdEntry)
      requires Valid()
      ensures ret == if Started() && 0 <= grank < |Flat(machines)| then 0 else -1
      ensures ret == 0 ==> Node(machines, lrank) && machines[lrank.macID][lrank.localID] == grank
    {
      lrank := IdEntry(0, 0);
      if gTableSize == -1 { return -1, lrank; }
      if grank < 0 || grank >= gTableSize { return -1, lrank; }
      lrank := gTable[grank];
      TableInverse(machines, gTable[..], grank);
      ret := 0;
    }

    /** `netq_findGlobalRank`: a search through the table */
    method FindGlobalRank(entry: IdEntry) returns (ret: int, grank: int)
      requires Valid()
      ensures ret == if Started() && Node(machines, entry) then 0 else -1
      ensures ret == 0 ==> grank == machines[entry.macID][entry.localID]
    {
      ret, grank := -1, 0;
      if gTable != null {
        var i := 0;
        while i < gTableSize
          invariant 0 <= i <= gTableSize && ret == -1
          invariant forall k :: 0 <= k < i ==> gTable[k] != entry
        {
          if gTable[i].macID == entry.macID && gTable[i].localID == entry.localID {
            grank, ret := i, 0;
            TableInverse(machines, gTable[..], i);
            return;
          }
          i := i + 1;
        }
        NotInTable(machines, gTable[..], entry);
      }
    }

    /** `netq_transLocalRank` */
    method TransLocalRank(lrank: int) returns (ret: int, grank: int)
      requires Valid()
      ensures ret == if Started() && 0 <= lrank < |machines[my]| then 0 else -1
      ensures ret == 0 ==> grank == machines[my][lrank]
    {
      grank := 0;
      if lTableSize == -1 { return -1, grank; }
      if lrank < 0 || lrank >= lTableSize { return -1, grank; }
      grank := lTable[lrank];
      ret := 0;
    }

    /** From a rank to its node and back, and from a node to its rank and back */
    method ThereAndBack(grank: int, entry: IdEntry) returns (again: int, same: IdEntry)
      requires Valid() && Started() && 0 <= grank < |Flat(machines)| && Node(machines, entry)
      ensures again == grank && same == entry
    {
      var ret, lrank := TransGlobalRank(grank);
      ret, again := FindGlobalRank(lrank);
      var rank;
      ret, rank := FindGlobalRank(entry);
      NodesDiffer(machines, entry, entry);
      ret, same := TransGlobalRank(rank);
      NodesDiffer(machines, entry, same);
    }
  }
}
