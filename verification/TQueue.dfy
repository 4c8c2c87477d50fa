/**
 * The intrusive queues of `tqueue.c`.
 *
 * Memory is a map from addresses to buckets; an element is named by the
 * address of its bucket, and 0 is the null pointer.  All queues live in one
 * memory, since an element from one queue's pool may be linked into another
 * queue's list.
 */
module TQueue {
  import opened Basics

  const NULL := 0

  datatype Bucket = Bucket(next: int, prev: int)

  type Memory = map<int, Bucket>

  // ---------- Circular lists ----------

  /** The `i`-th bucket of the ring: the control bucket, the elements, the control bucket again */
  function Ring(c: int, L: seq<int>, i: nat): int
    requires i <= |L| + 1
  { if i == 0 || i == |L| + 1 then c else L[i - 1] }

  predicate LinkAt(mem: Memory, c: int, L: seq<int>, i: nat)
    requires i <= |L|
  {
    && Ring(c, L, i) in mem && Ring(c, L, i + 1) in mem
    && mem[Ring(c, L, i)].next == Ring(c, L, i + 1) && mem[Ring(c, L, i + 1)].prev == Ring(c, L, i)
  }

  ghost predicate Linked(mem: Memory, c: int, L: seq<int>) { forall i :: 0 <= i <= |L| ==> LinkAt(mem, c, L, i) }

  predicate Distinct(c: int, L: seq<int>) {
    c !in L && forall i, j :: 0 <= i < j < |L| ==> L[i] != L[j]
  }

  function Remove(L: seq<int>, i: nat): seq<int>
    requires i < |L|
  { L[..i] + L[i + 1..] }

  /** The place of the first element that the comparison takes, or the length */
  function FirstMatch(L: seq<int>, cmp: int -> bool): (i: nat)
    ensures i <= |L| && (i < |L| ==> cmp(L[i])) && (forall j :: 0 <= j < i ==> !cmp(L[j]))
  { if L == [] || cmp(L[0]) then 0 else 1 + FirstMatch(L[1..], cmp) }

  /** The four writes of `enQ` */
  function Appended(mem: Memory, c: int, e: int): Memory
    requires c in mem && e in mem && mem[c].prev in mem
  {
    var m1 := mem[e := Bucket(c, mem[c].prev)];
    var m2 := m1[m1[c].prev := m1[m1[c].prev].(next := e)];
    m2[c := m2[c].(prev := e)]
  }

  lemma AppendedLinked(mem: Memory, c: int, L: seq<int>, e: int)
    requires Linked(mem, c, L) && Distinct(c, L) && e in mem && e != c && e !in L
    ensures c in mem && mem[c].prev in mem
    ensures Linked(Appended(mem, c, e), c, L + [e]) && Distinct(c, L + [e])
    ensures forall h :: h != c && h != e && h !in L ==> (h in Appended(mem, c, e) <==> h in mem) && (h in mem ==> Appended(mem, c, e)[h] == mem[h])
    ensures Appended(mem, c, e).Keys == mem.Keys
  {
    assert LinkAt(mem, c, L, |L|) && LinkAt(mem, c, L, 0);
    var mem' := Appended(mem, c, e);
    forall i | 0 <= i <= |L| + 1 ensures LinkAt(mem', c, L + [e], i) {
      if i <= |L| { assert LinkAt(mem, c, L, i); }
      if 0 < i { assert LinkAt(mem, c, L, i - 1); }
    }
  }

  /** The two writes of `Q_delElem` */
  function Unlinked(mem: Memory, e: int): Memory
    requires e in mem && mem[e].prev in mem && mem[e].next in mem
  {
    var m1 := mem[mem[e].prev := mem[mem[e].prev].(next := mem[e].next)];
    m1[m1[e].next := m1[m1[e].next].(prev := m1[e].prev)]
  }

  lemma UnlinkedLinked(mem: Memory, c: int, L: seq<int>, p: nat)
    requires Linked(mem, c, L) && Distinct(c, L) && p < |L|
    ensures L[p] in mem && mem[L[p]].prev in mem && mem[L[p]].next in mem && mem[L[p]].prev != L[p] && mem[L[p]].next != L[p]
    ensures Linked(Unlinked(mem, L[p]), c, Remove(L, p)) && Distinct(c, Remove(L, p)) && L[p] !in Remove(L, p)
    ensures forall h :: h != c && h !in L ==> (h in Unlinked(mem, L[p]) <==> h in mem) && (h in mem ==> Unlinked(mem, L[p])[h] == mem[h])
    ensures Unlinked(mem, L[p]).Keys == mem.Keys
  {
    assert LinkAt(mem, c, L, p) && LinkAt(mem, c, L, p + 1);
    var mem', L' := Unlinked(mem, L[p]), Remove(L, p);
    forall i | 0 <= i <= |L'| ensures LinkAt(mem', c, L', i) { UnlinkedAt(mem, c, L, p, i); }
  }

  lemma UnlinkedAt(mem: Memory, c: int, L: seq<int>, p: nat, i: nat)
    requires Linked(mem, c, L) && Distinct(c, L) && p < |L| && i < |L|
    requires L[p] in mem && mem[L[p]].prev in mem && mem[L[p]].next in mem
    ensures LinkAt(Unlinked(mem, L[p]), c, Remove(L, p), i)
  {
    assert LinkAt(mem, c, L, p) && LinkAt(mem, c, L, p + 1);
    assert LinkAt(mem, c, L, i) && LinkAt(mem, c, L, i + 1);
    var L' := Remove(L, p);
    assert forall k :: 0 <= k < |L'| ==> L'[k] == if k < p then L[k] else L[k + 1];
    if i < p { RingsDiffer(c, L, i, p); } else if i > p { RingsDiffer(c, L, i + 1, p); }
    if i < p { RingsDiffer(c, L, i + 1, p + 2); } else if i > p { RingsDiffer(c, L, i + 2, p + 2); }
  }

  /** Different places of the ring are different buckets. */
  lemma RingsDiffer(c: int, L: seq<int>, i: nat, j: nat)
    requires Distinct(c, L) && i <= |L| + 1 && j <= |L| + 1 && i != j && !(i == 0 && j == |L| + 1) && !(j == 0 && i == |L| + 1)
    ensures Ring(c, L, i) != Ring(c, L, j)
  { }

  /** A list whose buckets did not change is still linked. */
  lemma LinkedElsewhere(mem: Memory, mem': Memory, c: int, L: seq<int>)
    requires Linked(mem, c, L) && c in mem' && c in mem && mem'[c] == mem[c]
    requires forall h :: h in L ==> h in mem && h in mem' && mem'[h] == mem[h]
    ensures Linked(mem', c, L)
  {
    forall i | 0 <= i <= |L| ensures LinkAt(mem', c, L, i) { assert LinkAt(mem, c, L, i); }
  }

  // ---------- Pools ----------

  /** The pool `P`, bottom first, is threaded through `prev` from its top down. */
  predicate PoolAt(mem: Memory, P: seq<int>, d: nat) requires d < |P| {
    P[d] in mem && mem[P[d]].prev == if d == 0 then NULL else P[d - 1]
  }

  ghost predicate Threaded(mem: Memory, P: seq<int>, allocate: int) {
    && allocate == (if P == [] then NULL else P[|P| - 1])
    && forall d :: 0 <= d < |P| ==> PoolAt(mem, P, d)
  }

  lemma ThreadedElsewhere(mem: Memory, mem': Memory, P: seq<int>, allocate: int)
    requires Threaded(mem, P, allocate) && forall h :: h in P ==> h in mem && h in mem' && mem'[h].prev == mem[h].prev
    ensures Threaded(mem', P, allocate)
  {
    forall d | 0 <= d < |P| ensures PoolAt(mem', P, d) {
      var h := P[d];
      assert h in P && PoolAt(mem, P, d);
    }
  }

  /** The elements of a chunk behind its first, last one first */
  function Chunk(item: int, n: nat): (r: seq<int>)
    ensures |r| == if n == 0 then 0 else n - 1
    ensures forall d :: 0 <= d < |r| ==> r[d] == item + n - 1 - d
  { if n < 2 then [] else [item + n - 1] + Chunk(item, n - 1) }

  // ---------- All queues together ----------

  /** What a bucket is used for: the control bucket of a queue, in a list, in a pool, or in a caller's hands */
  datatype Place = Ctrl(q: nat) | Listed(q: nat) | Pooled(q: nat, d: nat) | Loose

  datatype Queue = Queue(ctrl: int, count: int, allocate: int, group: nat, hasCmp: bool, itemSize: nat)

  datatype World = World(mem: Memory, queue: seq<Queue>, list: seq<seq<int>>, pool: seq<seq<int>>, place: map<int, Place>)

  ghost predicate QueueOk(w: World, q: nat) requires q < |w.queue| == |w.list| == |w.pool| {
    var u := w.queue[q];
    && Linked(w.mem, u.ctrl, w.list[q]) && Distinct(u.ctrl, w.list[q]) && u.count == |w.list[q]|
    && Threaded(w.mem, w.pool[q], u.allocate) && u.group >= 2
    && PlacedOk(w, q)
  }

  /** The history says where the buckets of queue `q` are. */
  ghost predicate PlacedOk(w: World, q: nat) requires q < |w.queue| == |w.list| == |w.pool| {
    && w.queue[q].ctrl in w.place && w.place[w.queue[q].ctrl] == Ctrl(q)
    && (forall h :: h in w.list[q] ==> h in w.place && w.place[h] == Listed(q))
    && (forall d :: 0 <= d < |w.pool[q]| ==> w.pool[q][d] in w.place && w.place[w.pool[q][d]] == Pooled(q, d))
  }

  ghost predicate Valid(w: World) {
    && |w.queue| == |w.list| == |w.pool| && w.place.Keys == w.mem.Keys && NULL !in w.mem
    && forall q :: 0 <= q < |w.queue| ==> QueueOk(w, q)
  }

  /**
   * No bucket has two uses: lists and pools are free of repetitions and
   * disjoint from each other, over all queues.
   */
  lemma UsesDisjoint(w: World, q: nat, r: nat, i: nat, d: nat)
    requires Valid(w) && q < |w.queue| && r < |w.queue| && i < |w.list[q]| && d < |w.pool[r]|
    ensures w.list[q][i] != w.pool[r][d] && w.list[q][i] != w.queue[r].ctrl && w.pool[r][d] != w.queue[q].ctrl
    ensures forall j :: 0 <= j < |w.list[q]| && w.list[q][j] == w.list[q][i] ==> j == i
    ensures forall e :: 0 <= e < |w.pool[r]| && w.pool[r][e] == w.pool[r][d] ==> e == d
    ensures q != r ==> w.list[q][i] !in w.list[r] && w.pool[r][d] !in w.pool[q]
  {
    assert QueueOk(w, q) && QueueOk(w, r);
    assert forall e :: 0 <= e < |w.pool[q]| ==> w.place[w.pool[q][e]] == Pooled(q, e);
    forall e | 0 <= e < |w.pool[r]| && w.pool[r][e] == w.pool[r][d] ensures e == d { assert w.place[w.pool[r][e]] == Pooled(r, e); }
  }

  /** From the head of a pool the links visit its elements and end: pools are acyclic. */
  function Walk(mem: Memory, h: int, steps: nat): seq<int>
    decreases steps
  {
    if h == NULL || h !in mem || steps == 0 then [] else [h] + Walk(mem, mem[h].prev, steps - 1)
  }

  lemma {:induction false} PoolAcyclic(mem: Memory, P: seq<int>, allocate: int, steps: nat)
    requires Threaded(mem, P, allocate) && NULL !in mem && steps >= |P|
    ensures |Walk(mem, allocate, steps)| == |P|
    ensures forall d :: 0 <= d < |P| ==> Walk(mem, allocate, steps)[d] == P[|P| - 1 - d]
  {
    if P != [] {
      var n := |P| - 1;
      assert PoolAt(mem, P, n);
      assert Threaded(mem, P[..n], mem[allocate].prev) by {
        forall d | 0 <= d < n ensures PoolAt(mem, P[..n], d) { assert PoolAt(mem, P, d); }
      }
      PoolAcyclic(mem, P[..n], mem[allocate].prev, steps - 1);
    }
  }

  // ---------- What each operation does to all queues ----------

  /** Only the buckets of the list of queue `q`, and `e`, changed; the pools did not. */
  ghost predicate ListOnly(w: World, w': World, q: nat, e: int) {
    && |w.queue| == |w.list| == |w.pool| && q < |w.queue| && w'.pool == w.pool
    && |w'.queue| == |w.queue| && |w'.list| == |w.list|
    && w'.queue[q].(count := 0) == w.queue[q].(count := 0)
    && (forall r :: 0 <= r < |w.queue| && r != q ==> w'.queue[r] == w.queue[r] && w'.list[r] == w.list[r])
    && w'.mem.Keys == w.mem.Keys && e in w.mem
    && (forall h :: h in w.mem && h != w.queue[q].ctrl && h !in w.list[q] && h != e ==> w'.mem[h] == w.mem[h])
    && w'.place.Keys == w.place.Keys && (forall h :: h in w.place && h != e ==> w'.place[h] == w.place[h])
  }

  lemma ListOnlyOthers(w: World, w': World, q: nat, e: int, r: nat)
    requires Valid(w) && ListOnly(w, w', q, e) && r < |w.queue| && r != q
    requires e in w.place && (w.place[e].Loose? || w.place[e] == Listed(q))
    ensures QueueOk(w', r)
  {
    assert QueueOk(w, q) && QueueOk(w, r);
    LinkedElsewhere(w.mem, w'.mem, w.queue[r].ctrl, w.list[r]);
    forall h | h in w.pool[r] ensures h in w.mem && w'.mem[h] == w.mem[h] {
      var d :| 0 <= d < |w.pool[r]| && w.pool[r][d] == h;
      assert w.place[w.pool[r][d]] == Pooled(r, d);
    }
    ThreadedElsewhere(w.mem, w'.mem, w.pool[r], w.queue[r].allocate);
    PlacedElsewhere(w, w', r, e);
  }

  /** The places of queue `r` are the same if none of them is the one that changed. */
  lemma PlacedElsewhere(w: World, w': World, r: nat, e: int)
    requires Valid(w) && r < |w.queue| && r < |w'.queue| == |w'.list| == |w'.pool|
    requires w'.queue[r].ctrl == w.queue[r].ctrl && w'.list[r] == w.list[r] && w'.pool[r] == w.pool[r]
    requires w'.place.Keys >= w.place.Keys && (forall h :: h in w.place && h != e ==> w'.place[h] == w.place[h])
    requires e in w.place ==> w.place[e] != Ctrl(r) && w.place[e] != Listed(r) && forall d :: w.place[e] != Pooled(r, d)
    ensures PlacedOk(w', r)
  {
    assert QueueOk(w, r);
    forall h | h in w'.list[r] ensures h in w'.place && w'.place[h] == Listed(r) { assert h in w.list[r]; }
    forall d | 0 <= d < |w'.pool[r]| ensures w'.pool[r][d] in w'.place && w'.place[w'.pool[r][d]] == Pooled(r, d) {
      var h := w.pool[r][d];
      assert w.place[h] == Pooled(r, d) && h != e;
    }
  }

  lemma ListOnlyPool(w: World, w': World, q: nat, e: int)
    requires Valid(w) && ListOnly(w, w', q, e)
    requires e in w.place && (w.place[e].Loose? || w.place[e] == Listed(q))
    ensures Threaded(w'.mem, w'.pool[q], w'.queue[q].allocate)
    ensures forall d :: 0 <= d < |w.pool[q]| ==> w.pool[q][d] in w'.place && w'.place[w.pool[q][d]] == Pooled(q, d)
  {
    assert QueueOk(w, q);
    forall h | h in w.pool[q] ensures h in w.mem && w'.mem[h].prev == w.mem[h].prev {
      var d :| 0 <= d < |w.pool[q]| && w.pool[q][d] == h;
      assert w.place[w.pool[q][d]] == Pooled(q, d);
    }
    ThreadedElsewhere(w.mem, w'.mem, w.pool[q], w.queue[q].allocate);
    forall d | 0 <= d < |w.pool[q]| ensures w.pool[q][d] in w'.place && w'.place[w.pool[q][d]] == Pooled(q, d) {
      var h := w.pool[q][d];
      assert w.place[h] == Pooled(q, d) && h != e;
    }
  }

  function EnqWorld(w: World, q: nat, e: int): World
    requires Valid(w) && q < |w.queue| && e in w.place && w.place[e].Loose? && EnqReady(w, q, e)
  {
    w.(mem := Appended(w.mem, w.queue[q].ctrl, e), queue := w.queue[q := w.queue[q].(count := w.queue[q].count + 1)],
       list := w.list[q := w.list[q] + [e]], place := w.place[e := Listed(q)])
  }

  predicate EnqReady(w: World, q: nat, e: int) requires q < |w.queue| {
    w.queue[q].ctrl in w.mem && e in w.mem && w.mem[w.queue[q].ctrl].prev in w.mem
  }

  lemma EnqIsReady(w: World, q: nat, e: int)
    requires Valid(w) && q < |w.queue| && e in w.place && w.place[e].Loose?
    ensures EnqReady(w, q, e)
    ensures Linked(w.mem, w.queue[q].ctrl, w.list[q]) && Distinct(w.queue[q].ctrl, w.list[q]) && e != w.queue[q].ctrl && e !in w.list[q]
  {
    assert QueueOk(w, q);
    AppendedLinked(w.mem, w.queue[q].ctrl, w.list[q], e);
  }

  /** `enQ` keeps all queues in order. */
  lemma EnqKeeps(w: World, q: nat, e: int)
    requires Valid(w) && q < |w.queue| && e in w.place && w.place[e].Loose? && EnqReady(w, q, e)
    ensures Valid(EnqWorld(w, q, e))
  {
    var w' := EnqWorld(w, q, e);
    EnqIsReady(w, q, e);
    AppendedLinked(w.mem, w.queue[q].ctrl, w.list[q], e);
    assert ListOnly(w, w', q, e);
    ListOnlyPool(w, w', q, e);
    assert QueueOk(w, q);
    forall r | 0 <= r < |w.queue| ensures QueueOk(w', r) {
      if r != q { ListOnlyOthers(w, w', q, e, r); }
    }
  }

  function DelWorld(w: World, q: nat, i: nat): World
    requires Valid(w) && q < |w.queue| && i < |w.list[q]| && DelReady(w, q, i)
  {
    var e := w.list[q][i];
    w.(mem := Unlinked(w.mem, e), queue := w.queue[q := w.queue[q].(count := w.queue[q].count - 1)],
       list := w.list[q := Remove(w.list[q], i)], place := w.place[e := Loose])
  }

  predicate DelReady(w: World, q: nat, i: nat) requires q < |w.queue| == |w.list| && i < |w.list[q]| {
    var e := w.list[q][i];
    e in w.mem && w.mem[e].prev in w.mem && w.mem[e].next in w.mem
  }

  /** `Q_delElem` keeps all queues in order, and the element is in the caller's hands. */
  lemma DelKeeps(w: World, q: nat, i: nat)
    requires Valid(w) && q < |w.queue| && i < |w.list[q]|
    ensures DelReady(w, q, i) && Valid(DelWorld(w, q, i)) && DelWorld(w, q, i).place[w.list[q][i]].Loose?
  {
    assert QueueOk(w, q);
    var e := w.list[q][i];
    UnlinkedLinked(w.mem, w.queue[q].ctrl, w.list[q], i);
    var w' := DelWorld(w, q, i);
    assert ListOnly(w, w', q, e);
    ListOnlyPool(w, w', q, e);
    assert forall h :: h in Remove(w.list[q], i) ==> h in w.list[q];
    forall r | 0 <= r < |w.queue| ensures QueueOk(w', r) {
      if r != q { ListOnlyOthers(w, w', q, e, r); }
    }
  }

  /** Only bucket `e` and the pool of queue `q` changed, and new buckets may have come. */
  ghost predicate PoolOnly(w: World, w': World, q: nat, e: int) {
    && |w.queue| == |w.list| == |w.pool| && q < |w.queue| && w'.list == w.list
    && |w'.queue| == |w.queue| && |w'.pool| == |w.pool|
    && w'.queue[q].(allocate := 0) == w.queue[q].(allocate := 0)
    && (forall r :: 0 <= r < |w.queue| && r != q ==> w'.queue[r] == w.queue[r] && w'.pool[r] == w.pool[r])
    && w'.mem.Keys >= w.mem.Keys && (forall h :: h in w.mem && h != e ==> w'.mem[h] == w.mem[h])
    && w'.place.Keys >= w.place.Keys && (forall h :: h in w.place && h != e ==> w'.place[h] == w.place[h])
    && (e in w.place ==> w.place[e].Loose? || (w.place[e].Pooled? && w.place[e].q == q))
  }

  lemma PoolOnlyList(w: World, w': World, q: nat, e: int, r: nat)
    requires Valid(w) && PoolOnly(w, w', q, e) && r < |w.queue|
    ensures Linked(w'.mem, w'.queue[r].ctrl, w'.list[r]) && Distinct(w'.queue[r].ctrl, w'.list[r])
    ensures w'.queue[r].ctrl in w'.place && w'.place[w'.queue[r].ctrl] == Ctrl(r)
    ensures forall h :: h in w'.list[r] ==> h in w'.place && w'.place[h] == Listed(r)
  {
    assert QueueOk(w, r);
    LinkedElsewhere(w.mem, w'.mem, w.queue[r].ctrl, w.list[r]);
  }

  lemma PoolOnlyOthers(w: World, w': World, q: nat, e: int, r: nat)
    requires Valid(w) && PoolOnly(w, w', q, e) && r < |w.queue| && r != q
    ensures QueueOk(w', r)
  {
    assert QueueOk(w, r);
    PoolOnlyList(w, w', q, e, r);
    forall h | h in w.pool[r] ensures h in w.mem && w'.mem[h] == w.mem[h] {
      var d :| 0 <= d < |w.pool[r]| && w.pool[r][d] == h;
      assert w.place[w.pool[r][d]] == Pooled(r, d);
    }
    ThreadedElsewhere(w.mem, w'.mem, w.pool[r], w.queue[r].allocate);
    PlacedElsewhere(w, w', r, e);
  }

  function PutWorld(w: World, q: nat, e: int): World
    requires q < |w.queue| == |w.pool| && e in w.mem
  {
    w.(mem := w.mem[e := w.mem[e].(prev := w.queue[q].allocate)], queue := w.queue[q := w.queue[q].(allocate := e)],
       pool := w.pool[q := w.pool[q] + [e]], place := w.place[e := Pooled(q, |w.pool[q]|)])
  }

  /** `Q_freeElem` keeps all queues in order, whichever queue the element came from. */
  lemma PutKeeps(w: World, q: nat, e: int)
    requires Valid(w) && q < |w.queue| && e in w.place && w.place[e].Loose?
    ensures Valid(PutWorld(w, q, e))
  {
    var w', P := PutWorld(w, q, e), w.pool[q];
    assert QueueOk(w, q);
    assert PoolOnly(w, w', q, e);
    PoolOnlyList(w, w', q, e, q);
    forall d | 0 <= d < |P + [e]| ensures PoolAt(w'.mem, P + [e], d) && w'.place[(P + [e])[d]] == Pooled(q, d) {
      if d < |P| {
        var h := P[d];
        assert PoolAt(w.mem, P, d) && w.place[h] == Pooled(q, d) && h != e;
      }
    }
    assert QueueOk(w', q);
    forall r | 0 <= r < |w.queue| && r != q ensures QueueOk(w', r) { PoolOnlyOthers(w, w', q, e, r); }
  }

  function TakeWorld(w: World, q: nat): World
    requires q < |w.queue| == |w.pool| && w.pool[q] != [] && w.queue[q].allocate in w.mem
  {
    var e := w.queue[q].allocate;
    w.(mem := w.mem[e := w.mem[e].(next := NULL)], queue := w.queue[q := w.queue[q].(allocate := w.mem[e].prev)],
       pool := w.pool[q := w.pool[q][..|w.pool[q]| - 1]], place := w.place[e := Loose])
  }

  /** The pool without its top is threaded from the bucket below. */
  lemma TakeThreaded(mem: Memory, mem': Memory, P: seq<int>, allocate: int)
    requires Threaded(mem, P, allocate) && P != [] && allocate in mem && mem' == mem[allocate := mem[allocate].(next := NULL)]
    ensures Threaded(mem', P[..|P| - 1], mem[allocate].prev)
  {
    var P' := P[..|P| - 1];
    assert PoolAt(mem, P, |P| - 1);
    forall d | 0 <= d < |P'| ensures PoolAt(mem', P', d) { assert PoolAt(mem, P, d); }
  }

  /** `Q_newElem` from a pool that is not empty */
  lemma TakeKeeps(w: World, q: nat)
    requires Valid(w) && q < |w.queue| && w.pool[q] != []
    ensures w.queue[q].allocate in w.mem && Valid(TakeWorld(w, q)) && TakeWorld(w, q).place[w.queue[q].allocate].Loose?
  {
    assert QueueOk(w, q);
    var P, n := w.pool[q], |w.pool[q]| - 1;
    assert PoolAt(w.mem, P, n);
    var e := P[n];
    assert w.place[e] == Pooled(q, n);
    forall d | 0 <= d < n ensures P[d] in w.place && w.place[P[d]] == Pooled(q, d) { }
    var w' := TakeWorld(w, q);
    assert PoolOnly(w, w', q, e);
    PoolOnlyList(w, w', q, e, q);
    TakeThreaded(w.mem, w'.mem, P, e);
    forall d | 0 <= d < |P[..n]| ensures P[..n][d] in w'.place && w'.place[P[..n][d]] == Pooled(q, d) {
      var h := P[d];
      assert w.place[h] == Pooled(q, d) && h != e;
    }
    assert w'.pool[q] == P[..n];
    assert QueueOk(w', q);
    forall r | 0 <= r < |w.queue| && r != q ensures QueueOk(w', r) { PoolOnlyOthers(w, w', q, e, r); }
  }

  /** A chunk linked through `prev` as the loop of `Q_newElem` does it; its first bucket is for the caller. */
  function ChunkBuckets(chunk: set<int>, item: int, last: int): Memory {
    map h | h in chunk :: Bucket(NULL, if item < h < last then h + 1 else NULL)
  }

  function ChunkPlaces(chunk: set<int>, item: int, last: int, q: nat): map<int, Place> {
    map h | h in chunk :: if h <= item || h > last then Loose else Pooled(q, last - h)
  }

  function ChunkWorld(w: World, q: nat, item: int): World
    requires q < |w.queue| == |w.pool|
  {
    var g := w.queue[q].group;
    var chunk := Range(item, item + g);
    w.(mem := w.mem + ChunkBuckets(chunk, item, item + g - 1), queue := w.queue[q := w.queue[q].(allocate := item + 1)],
       pool := w.pool[q := Chunk(item, g)], place := w.place + ChunkPlaces(chunk, item, item + g - 1, q))
  }

  /** `Q_newElem` with an empty pool: memory from `malloc` is fresh. */
  lemma ChunkKeeps(w: World, q: nat, item: int)
    requires Valid(w) && q < |w.queue| && w.pool[q] == [] && item > 0
    requires forall h :: item <= h < item + w.queue[q].group ==> h !in w.mem
    ensures Valid(ChunkWorld(w, q, item)) && item in ChunkWorld(w, q, item).place && ChunkWorld(w, q, item).place[item].Loose?
  {
    assert QueueOk(w, q);
    var w', g := ChunkWorld(w, q, item), w.queue[q].group;
    var P := Chunk(item, g);
    assert item !in w.place;
    assert PoolOnly(w, w', q, item);
    PoolOnlyList(w, w', q, item, q);
    forall d | 0 <= d < |P| ensures PoolAt(w'.mem, P, d) && P[d] in w'.place && w'.place[P[d]] == Pooled(q, d) {
      var h := P[d];
      assert h == item + g - 1 - d;
    }
    assert QueueOk(w', q);
    forall r | 0 <= r < |w.queue| && r != q ensures QueueOk(w', r) { PoolOnlyOthers(w, w', q, item, r); }
  }

  const BUCKET_SIZE := 16

  /**
   * The size of an item in `Q_init`, without its bucket: it is to be a
   * multiple of 8, but the code rounds where a multiple of 7 is not met.
   */
  function ItemSize(size: nat): nat { if size % 7 != 0 then (size + 7) / 8 * 8 else size }

  /** So the item is never too small, and a multiple of 8 exactly if its size was none of 7 or was one of 8 before. */
  lemma ItemSizeRoundsIff(size: nat)
    ensures size <= ItemSize(size) < size + 8
    ensures ItemSize(size) % 8 == 0 <==> size % 7 != 0 || size % 8 == 0
  {
    if size % 7 != 0 { EightTimes((size + 7) / 8); }
  }

  lemma EightTimes(k: nat)
    ensures (k * 8) % 8 == 0
  { }

  /** Items of seven bytes are packed so that the buckets between them are not aligned. */
  lemma SevenIsNotRounded()
    ensures ItemSize(7) == 7
  { }

  function AddWorld(w: World, ctrl: int, group: nat, hasCmp: bool, itemSize: nat): World
    requires |w.queue| == |w.list| == |w.pool|
  {
    w.(mem := w.mem[ctrl := Bucket(ctrl, ctrl)], queue := w.queue + [Queue(ctrl, 0, NULL, group, hasCmp, itemSize)],
       list := w.list + [[]], pool := w.pool + [[]], place := w.place[ctrl := Ctrl(|w.queue|)])
  }

  /** A new control bucket that points at itself is an empty queue. */
  lemma AddKeeps(w: World, ctrl: int, group: nat, hasCmp: bool, itemSize: nat)
    requires Valid(w) && ctrl !in w.mem && ctrl != NULL && group >= 2
    ensures Valid(AddWorld(w, ctrl, group, hasCmp, itemSize))
  {
    var w', n := AddWorld(w, ctrl, group, hasCmp, itemSize), |w.queue|;
    assert LinkAt(w'.mem, ctrl, [], 0);
    assert QueueOk(w', n);
    forall r | 0 <= r < n ensures QueueOk(w', r) {
      assert QueueOk(w, r);
      LinkedElsewhere(w.mem, w'.mem, w.queue[r].ctrl, w.list[r]);
      forall h | h in w.pool[r] ensures h in w.mem && w'.mem[h] == w.mem[h] {
        var d :| 0 <= d < |w.pool[r]| && w.pool[r][d] == h;
        assert PoolAt(w.mem, w.pool[r], d);
      }
      ThreadedElsewhere(w.mem, w'.mem, w.pool[r], w.queue[r].allocate);
      PlacedElsewhere(w, w', r, ctrl);
    }
  }

  /** What never changes of the queues */
  predicate SameKinds(qs: seq<Queue>, qs': seq<Queue>) {
    && |qs'| == |qs|
    && forall i :: 0 <= i < |qs| ==> qs'[i] == qs[i].(count := qs'[i].count, allocate := qs'[i].allocate)
  }

  /** Elements in the hands of callers stay there, but for `e`. */
  ghost predicate LooseKept(was: map<int, Place>, now: map<int, Place>, e: int) {
    forall h :: h in was && was[h].Loose? && h != e ==> h in now && now[h].Loose?
  }

  // ---------- The code ----------

  /** The linking loop of `Q_newElem` over a fresh chunk */
  method LinkChunk(mem: Memory, item: int, g: nat) returns (m: Memory)
    requires g >= 2
    ensures m == mem + ChunkBuckets(Range(item, item + g), item, item + g - 1)
  {
    var h := item + 1;
    m := mem[item := Bucket(NULL, NULL)];
    while h < item + g - 1
      invariant item < h <= item + g - 1
      invariant forall a :: a in m <==> a in mem || item <= a < h
      invariant forall a :: a in m ==> m[a] == if item <= a < h then Bucket(NULL, if item < a then a + 1 else NULL) else mem[a]
    {
      m := m[h := Bucket(NULL, h + 1)];
      h := h + 1;
    }
    m := m[h := Bucket(NULL, NULL)];
  }

  class Queues {
    var mem: Memory
    var queue: seq<Queue>
    ghost var list: seq<seq<int>>
    ghost var pool: seq<seq<int>>
    ghost var place: map<int, Place>

    ghost function St(): World
      reads this
    { World(mem, queue, list, pool, place) }

    ghost method Record(w: World)
      modifies this`list, this`pool, this`place
      ensures list == w.list && pool == w.pool && place == w.place
    { list, pool, place := w.list, w.pool, w.place; }

    constructor ()
      ensures Valid(St()) && queue == []
    { mem, queue, list, pool, place := map[], [], [], [], map[]; }

    /**
     * `Q_create` and `Q_init`; `ok` and `ctrl` tell whether `malloc` gives the
     * queue and where, `okChunk` and `base` whether it gives the first chunk.
     * That goes to the pool whole but for the order; without it the pool is
     * empty and the queue is there all the same.
     */
    method QCreate(hasCmp: bool, itemSize: int, group: int, ok: bool, ctrl: int, okChunk: bool, base: int) returns (q: int)
      requires Valid(St()) && ctrl > 0 && base > 0 && ctrl !in mem
      requires forall h :: base <= h < base + group ==> h !in mem && h != ctrl
      modifies this
      ensures Valid(St())
      ensures if itemSize <= 0 || group <= 1 || !ok then q == -1 && St() == old(St())
              else
                && q == |old(queue)| && |queue| == q + 1 && list == old(list) + [[]]
                && SameKinds(old(queue), queue[..q]) && LooseKept(old(place), place, NULL)
                && queue[q].itemSize == ItemSize(itemSize) + BUCKET_SIZE && queue[q].hasCmp == hasCmp && queue[q].group == group
                && pool == old(pool) + [if okChunk then Chunk(base, group) + [base] else []]
    {
      if itemSize <= 0 || group <= 1 || !ok { return -1; }
      hide ItemSize;
      ghost var w := St();
      var size := ItemSize(itemSize) + BUCKET_SIZE;
      AddKeeps(w, ctrl, group, hasCmp, size);
      q := |queue|;
      mem := mem[ctrl := Bucket(ctrl, ctrl)];
      queue := queue + [Queue(ctrl, 0, NULL, group, hasCmp, size)];
      Record(AddWorld(w, ctrl, group, hasCmp, size));
      hide Valid, Chunk;
      var e := QNewElem(q, okChunk, base);
      QFreeElem(q, e);
      assert pool == old(pool) + [if okChunk then Chunk(base, group) + [base] else []];
    }

    /** `Q_newElem`; `ok` and `base` tell whether `malloc` succeeds, if it comes to that, and what it gives. */
    method QNewElem(q: nat, ok: bool, base: int) returns (e: int)
      requires Valid(St()) && q < |queue| && base > 0
      requires forall h :: base <= h < base + queue[q].group ==> h !in mem
      modifies this
      ensures Valid(St()) && list == old(list) && SameKinds(old(queue), queue)
      ensures var P := old(pool)[q];
              if P != [] then e == P[|P| - 1] && pool == old(pool)[q := P[..|P| - 1]]
              else if ok then e == base && pool == old(pool)[q := Chunk(base, old(queue)[q].group)]
              else e == NULL && St() == old(St())
      ensures e != NULL ==> e in place && place[e].Loose?
      ensures LooseKept(old(place), place, NULL)
    {
      assert QueueOk(St(), q) && Threaded(mem, pool[q], queue[q].allocate);
      if pool[q] != [] { assert PoolAt(mem, pool[q], |pool[q]| - 1); }
      hide Valid, Chunk;
      if queue[q].allocate != NULL {
        e := PopElem(q);
      } else if ok {
        e := base;
        AddChunk(q, base);
      } else {
        e := NULL;
      }
    }

    /** The pool is empty: the first bucket of a new chunk, and the others in the pool */
    method AddChunk(q: nat, base: int)
      requires Valid(St()) && q < |queue| && pool[q] == [] && base > 0
      requires forall h :: base <= h < base + queue[q].group ==> h !in mem
      modifies this
      ensures St() == ChunkWorld(old(St()), q, base) && Valid(St()) && base in place && place[base].Loose?
      ensures SameKinds(old(queue), queue)
      ensures LooseKept(old(place), place, NULL)
    {
      ghost var w := St();
      ChunkKeeps(w, q, base);
      assert queue[q].group >= 2 by { assert QueueOk(w, q); }
      hide Valid, ChunkBuckets;
      mem := LinkChunk(mem, base, queue[q].group);
      queue := queue[q := queue[q].(allocate := base + 1)];
      Record(ChunkWorld(w, q, base));
    }

    method PopElem(q: nat) returns (e: int)
      requires Valid(St()) && q < |queue| && pool[q] != []
      modifies this
      ensures e == old(pool)[q][|old(pool)[q]| - 1] && pool == old(pool)[q := old(pool)[q][..|old(pool)[q]| - 1]]
      ensures Valid(St()) && list == old(list) && e in place && place[e].Loose?
      ensures SameKinds(old(queue), queue)
      ensures LooseKept(old(place), place, NULL)
    {
      ghost var w := St();
      assert QueueOk(w, q) && PoolAt(w.mem, w.pool[q], |w.pool[q]| - 1);
      TakeKeeps(w, q);
      hide Valid, QueueOk;
      e := queue[q].allocate;
      queue := queue[q := queue[q].(allocate := mem[e].prev)];
      mem := mem[e := mem[e].(next := NULL)];
      Record(TakeWorld(w, q));
    }

    /** `Q_freeElem`, for an element of any queue that is in no list and no pool */
    method QFreeElem(q: nat, e: int)
      requires Valid(St()) && q < |queue| && (e != NULL ==> e in place && place[e].Loose?)
      modifies this
      ensures Valid(St()) && list == old(list) && SameKinds(old(queue), queue)
      ensures if e == NULL then St() == old(St()) else pool == old(pool)[q := old(pool)[q] + [e]]
      ensures LooseKept(old(place), place, e)
    {
      if e == NULL { return; }
      ghost var w := St();
      PutKeeps(w, q, e);
      mem := mem[e := mem[e].(prev := queue[q].allocate)];
      queue := queue[q := queue[q].(allocate := e)];
      Record(PutWorld(w, q, e));
    }

    /** `enQ`: the element comes last. */
    method EnQ(q: nat, e: int)
      requires Valid(St()) && q < |queue| && e in place && place[e].Loose?
      modifies this
      ensures Valid(St()) && list == old(list)[q := old(list)[q] + [e]] && pool == old(pool) && SameKinds(old(queue), queue)
      ensures LooseKept(old(place), place, e)
    {
      ghost var w := St();
      EnqIsReady(w, q, e);
      EnqKeeps(w, q, e);
      var c := queue[q].ctrl;
      mem := mem[e := Bucket(c, mem[c].prev)];
      mem := mem[mem[c].prev := mem[mem[c].prev].(next := e)];
      mem := mem[c := mem[c].(prev := e)];
      queue := queue[q := queue[q].(count := queue[q].count + 1)];
      Record(EnqWorld(w, q, e));
    }

    /** `Q_delElem`, with the place of the element as history */
    method DelElem(q: nat, e: int, ghost i: nat)
      requires Valid(St()) && q < |queue| == |list| && i < |list[q]| && list[q][i] == e
      modifies this
      ensures Valid(St()) && list == old(list)[q := Remove(old(list)[q], i)] && pool == old(pool) && SameKinds(old(queue), queue)
      ensures e in place && place[e].Loose?
      ensures LooseKept(old(place), place, NULL)
    {
      ghost var w := St();
      DelKeeps(w, q, i);
      assert QueueOk(w, q);
      UnlinkedLinked(w.mem, w.queue[q].ctrl, w.list[q], i);
      mem := mem[mem[e].prev := mem[mem[e].prev].(next := mem[e].next)];
      mem := mem[mem[e].next := mem[mem[e].next].(prev := mem[e].prev)];
      queue := queue[q := queue[q].(count := queue[q].count - 1)];
      Record(DelWorld(w, q, i));
    }

    /** `Q_removeElem`, for an element of the list */
    method RemoveElem(q: nat, e: int) returns (r: int)
      requires Valid(St()) && q < |queue| == |list| && e in list[q]
      modifies this
      ensures Valid(St()) && r == e && pool == old(pool) && SameKinds(old(queue), queue)
      ensures list == old(list)[q := Remove(old(list)[q], IndexOf(old(list)[q], e))]
      ensures e in place && place[e].Loose?
      ensures LooseKept(old(place), place, NULL)
    {
      DelElem(q, e, IndexOf(list[q], e));
      r := e;
    }

    /** `deQ`: the first element, or the null pointer */
    method DeQ(q: nat) returns (e: int)
      requires Valid(St()) && q < |queue|
      modifies this
      ensures Valid(St()) && pool == old(pool) && SameKinds(old(queue), queue)
      ensures var L := old(list)[q];
              if L == [] then e == NULL && list == old(list)
              else e == L[0] && list == old(list)[q := L[1..]] && e in place && place[e].Loose?
      ensures LooseKept(old(place), place, NULL)
    {
      assert QueueOk(St(), q) && LinkAt(mem, queue[q].ctrl, list[q], 0);
      e := mem[queue[q].ctrl].next;
      if e == queue[q].ctrl { return NULL; }
      DelElem(q, e, 0);
      assert Remove(old(list)[q], 0) == old(list)[q][1..];
    }

    /** `Q_probe`: the first element that the comparison takes, left where it is */
    method Probe(q: nat, cmp: int -> bool) returns (e: int)
      requires Valid(St()) && q < |queue| == |list|
      ensures var i := FirstMatch(list[q], cmp); e == if queue[q].hasCmp && i < |list[q]| then list[q][i] else NULL
    {
      if !queue[q].hasCmp { return NULL; }
      var f := queue[q].ctrl;
      ghost var L, k := list[q], 0;
      assert QueueOk(St(), q) && LinkAt(mem, f, L, 0);
      e := mem[f].next;
      while e != NULL && e != f && !cmp(e)
        invariant 0 <= k <= |L| && e == Ring(f, L, k + 1) && e in mem && LinkAt(mem, f, L, k)
        invariant forall j :: 0 <= j < k ==> !cmp(L[j])
        decreases |L| - k
      {
        assert LinkAt(mem, f, L, k + 1);
        e := mem[e].next;
        k := k + 1;
      }
      assert forall j :: 0 <= j < |L| ==> L[j] != f;
      if e == f { return NULL; }
    }

    /** `Q_find`: the first element that the comparison takes, taken out of the list; all others keep their order. */
    method Find(q: nat, cmp: int -> bool) returns (e: int)
      requires Valid(St()) && q < |queue| == |list|
      modifies this
      ensures Valid(St()) && pool == old(pool) && SameKinds(old(queue), queue)
      ensures var L := old(list)[q];
              var i := FirstMatch(L, cmp);
              if old(queue)[q].hasCmp && i < |L| then e == L[i] && list == old(list)[q := Remove(L, i)] && e in place && place[e].Loose?
              else e == NULL && St() == old(St())
      ensures LooseKept(old(place), place, NULL)
    {
      if !queue[q].hasCmp { return NULL; }
      var f := queue[q].ctrl;
      ghost var L, k := list[q], 0;
      assert QueueOk(St(), q) && LinkAt(mem, f, L, 0);
      e := mem[f].next;
      while e != NULL && e != f
        invariant St() == old(St())
        invariant 0 <= k <= |L| && e == Ring(f, L, k + 1) && e in mem && LinkAt(mem, f, L, k)
        invariant forall j :: 0 <= j < k ==> !cmp(L[j])
        decreases |L| - k
      {
        if cmp(e) {
          DelElem(q, e, k);
          return e;
        }
        assert LinkAt(mem, f, L, k + 1);
        e := mem[e].next;
        k := k + 1;
      }
      assert forall j :: 0 <= j < |L| ==> L[j] != f;
      return NULL;
    }

    /** `Q_probe` and then `Q_removeElem` do what `Q_find` does. */
    method ProbeThenRemove(q: nat, cmp: int -> bool) returns (e: int)
      requires Valid(St()) && q < |queue| == |list|
      modifies this
      ensures Valid(St()) && pool == old(pool) && SameKinds(old(queue), queue)
      ensures var L := old(list)[q];
              var i := FirstMatch(L, cmp);
              if old(queue)[q].hasCmp && i < |L| then e == L[i] && list == old(list)[q := Remove(L, i)] && e in place && place[e].Loose?
              else e == NULL && St() == old(St())
    {
      e := Probe(q, cmp);
      assert QueueOk(St(), q);
      if e != NULL {
        var r := RemoveElem(q, e);
      }
    }

    /** `Q_cnt` and `Q_isEmpty` */
    method Cnt(q: nat) returns (n: int, empty: bool)
      requires Valid(St()) && q < |queue| == |list|
      ensures n == |list[q]| && (empty <==> list[q] == [])
    {
      assert QueueOk(St(), q);
      n, empty := queue[q].count, queue[q].count == 0;
    }

    /** `Q_first` and `Q_last` */
    method Ends(q: nat) returns (first: int, last: int)
      requires Valid(St()) && q < |queue| == |list|
      ensures first == if list[q] == [] then NULL else list[q][0]
      ensures last == if list[q] == [] then NULL else list[q][|list[q]| - 1]
    {
      var c := queue[q].ctrl;
      assert QueueOk(St(), q) && LinkAt(mem, c, list[q], 0) && LinkAt(mem, c, list[q], |list[q]|);
      first := if mem[c].next == c then NULL else mem[c].next;
      last := if mem[c].prev == c then NULL else mem[c].prev;
    }
  }
}
