/** The invariant of the reduction queue, and its proof step by step. */
module ReduceProof {
  import opened Basics
  import opened Counting
  import opened ReduceOps
  import opened Reduce

  // ---------- Invariant ----------

  /** The number of rounds whose handle has been filled */
  function Filled(s: State): int { |s.ids| - 1 }

  /** Round `k` is filled or next, and the root has not taken its result. */
  predicate IsLive(s: State, k: int) { |s.result| <= k <= Filled(s) }

  predicate SizesOk(s: State) {
    && s.n >= 2 && s.root < s.n && Sized(s) && s.brk > 0
    && |s.result| <= Filled(s) == |s.starter| == |s.mem| <= |s.ops|
    && -1 <= s.filler < s.n && (s.filler >= 0 ==> s.thread[s.filler].pc.Fill?)
    && (forall k :: 0 <= k < |s.starter| ==> s.starter[k] < s.n && k < |s.contrib[s.starter[k]]|)
  }

  /** Handle `h` is at place `p`, by what the threads, the pool and the chain say. */
  predicate AtPlace(s: State, h: int, p: Place) {
    match p
    case Pooled(d) => d < |s.pool| && s.pool[d] == h
    case Live(k) => IsLive(s, k) && s.ids[k] == h
    case Held(i) => i < |s.thread| && s.thread[i].pc.Holds(h)
    case Unlinked => s.root < |s.thread| && s.thread[s.root].pc.GiveBack? && s.thread[s.root].cur == h
  }

  /** Every handle is at exactly one place, and one in a thread's hands is a closed gate. */
  ghost predicate PlacesOk(s: State) {
    && s.place.Keys == s.heap.Keys
    && (forall h :: h in s.place ==> 0 < h < s.brk && AtPlace(s, h, s.place[h]))
    && (forall h, p :: AtPlace(s, h, p) ==> h in s.place && s.place[h] == p)
    && (forall h :: h in s.place && s.place[h].Held? ==> s.heap[h].avail == -1)
  }

  /** Thread `i` has put its element `e` of round `k` into the shared result. */
  predicate Did(s: State, i: nat, k: nat, e: nat) requires i < |s.thread| && i < |s.past| {
    s.past[i] > k || (s.past[i] == k && s.thread[i].pc.Did(e))
  }

  /** What thread `i` has contributed to element `e` of round `k` so far */
  function Val(s: State, i: nat, k: nat, e: nat): Int32
    requires Sized(s) && i < s.n && k < |s.ops|
  {
    if Did(s, i, k, e) && k < |s.contrib[i]| then Elem(s.ops[k], s.contrib[i][k], e) else Unit(s.ops[k])
  }

  function Row(s: State, k: nat, e: nat): seq<Int32>
    requires Sized(s) && k < |s.ops|
  { seq(s.n, i requires 0 <= i < s.n => Val(s, i, k, e)) }

  /** What all threads contribute to element `e` of round `k` */
  function Col(s: State, k: nat, e: nat): seq<Int32>
    requires Sized(s) && k < |s.ops|
  { seq(s.n, i requires 0 <= i < s.n => if k < |s.contrib[i]| then Elem(s.ops[k], s.contrib[i][k], e) else Unit(s.ops[k])) }

  /** The number of shared elements of round `k`: what its first thread brought */
  function Width(s: State, k: nat): nat
    requires SizesOk(s) && k < |s.starter|
  { |s.contrib[s.starter[k]][k]| }

  /** The shared result of a round is the fold of what has been contributed, if there was memory for it. */
  predicate DataOk(s: State, k: nat, data: Shared) requires SizesOk(s) && k < |s.starter| {
    && (data.Res? <==> s.mem[k])
    && (data.Res? ==> |data.vals| == Width(s, k))
    && (data.Res? ==> forall e :: 0 <= e < |data.vals| ==> data.vals[e] == Fold(s.ops[k], Row(s, k, e)))
  }

  predicate ChainAt(s: State, k: nat) requires SizesOk(s) && k <= Filled(s) {
    && s.ids[k] in s.heap
    && var node := s.heap[s.ids[k]];
    if k < Filled(s) then node.next == s.ids[k + 1] && node.avail == Above(s.past, k) && DataOk(s, k, node.data)
    else node.avail == if s.filler < 0 then -1 else 0
  }

  predicate ChainOk(s: State) requires SizesOk(s) {
    && (forall k :: 0 <= k <= Filled(s) && IsLive(s, k) ==> ChainAt(s, k))
    && (|s.result| == 0 ==> s.first == s.ids[0])
  }

  /** The result that the root took is the fold of all contributions; there is none for want of memory. */
  predicate ResultAt(s: State, k: nat) requires SizesOk(s) && k < |s.result| {
    && (s.result[k].Res? <==> s.mem[k])
    && (s.result[k].Res? ==> ResultIs(s, k, s.result[k].vals))
  }

  predicate ResultIs(s: State, k: nat, vals: seq<Int32>) requires SizesOk(s) && k < |s.starter| {
    && |vals| == Min(if k < |s.contrib[s.root]| then |s.contrib[s.root][k]| else 0, Width(s, k))
    && forall e :: 0 <= e < |vals| ==> vals[e] == Fold(s.ops[k], Col(s, k, e))
  }

  predicate ResultsOk(s: State) requires SizesOk(s) { forall k :: 0 <= k < |s.result| ==> ResultAt(s, k) }

  /** The key of a thread in round `m` leads to its handle, or to the next one when it is about to be counted. */
  predicate KeyOk(t: Thread, m: nat, ids: seq<int>) requires m < |ids| {
    if t.pc.Count? then m + 1 < |ids| && t.key == ids[m + 1]
    else if (t.pc.Gather? || t.pc.GiveBack?) && t.pc.init then t.pc.item == ids[m]
    else t.key == ids[m] || (m == 0 && t.key == NULL)
  }

  /** A thread in round `m` works on the handle of that round with what it brought. */
  predicate CallOk(t: Thread, m: nat, ids: seq<int>, ops: seq<Op>, mine: seq<seq<Int32>>) requires m < |ids| {
    t.pc.InRound() ==> m < |mine| && m < |ops| && t.cur == ids[m] && t.send == mine[m] && t.op == ops[m]
  }

  /** Where a thread stands in its elements; what it read is worse than what it has. */
  predicate AtElementOk(t: Thread, width: nat) requires t.pc.Element? || t.pc.Swap? {
    && t.pc.e <= Min(|t.send|, width)
    && (t.pc.Swap? ==> t.pc.e < Min(|t.send|, width)
                       && (if t.op == MAX then t.send[t.pc.e] > t.pc.seen else t.op == MIN && t.send[t.pc.e] < t.pc.seen))
  }

  predicate RoundOk(s: State, i: nat) requires SizesOk(s) && i < s.n && s.past[i] <= Filled(s) {
    var t, m := s.thread[i], s.past[i];
    && (t.pc.Wait? || t.pc.Drop? ==> m < Filled(s) || s.filler >= 0)
    && (t.pc.Fill? ==> s.filler == i && m == Filled(s))
    && (t.pc.Announce? ==> m == Filled(s) - 1 && Above(s.past, m) == 0 && t.pc.item == s.ids[m + 1] && s.starter[m] == i)
    && (t.pc.Combining() ==> m < Filled(s) && Above(s.past, m) > 0)
    && (t.pc.Element? || t.pc.Swap? ==> AtElementOk(t, Width(s, m)))
    && (t.pc.Swap? ==> s.mem[m])
    && (t.pc.SetKey? || t.pc.Count? || t.pc.Announce? ==> t.pc.ret == CodeOf(s.mem[m]) && (i == s.root && t.pc.Announce? ==> s.mem[m]))
  }

  /** The calls that are over returned the code of their round. */
  predicate CodesOk(codes: seq<int>, calls: nat, mem: seq<bool>) {
    |codes| == calls <= |mem| && forall k :: 0 <= k < |codes| ==> codes[k] == CodeOf(mem[k])
  }

  /** The number of calls that thread `i` has returned from, but for the last step of the root */
  function Over(s: State, i: nat): nat requires Sized(s) && i < s.n { if i == s.root then |s.result| else s.past[i] }

  /** Only the root gathers, and it is as far as its results, or one round further. */
  predicate RootOk(t: Thread, m: nat, isRoot: bool, results: nat, ids: seq<int>, mem: seq<bool>, mine: seq<seq<Int32>>) {
    && (t.pc.Gather? || t.pc.GiveBack? ==> isRoot)
    && (isRoot ==> m == results + (if t.pc.Gather? then 1 else 0))
    && (t.pc.Gather? ==> m <= |mem| && m <= |ids| && t.cur == ids[m - 1] && |mine| == m && t.send == mine[m - 1]
                         && t.pc.ret == CodeOf(mem[m - 1]))
    && (t.pc.GiveBack? ==> m > 0)
  }

  predicate ThreadOk(s: State, i: nat) requires SizesOk(s) && i < s.n {
    && |s.result| <= s.past[i] <= Filled(s)
    && |s.contrib[i]| == s.past[i] + (if s.thread[i].pc.InRound() then 1 else 0)
    && |s.contrib[i]| <= |s.ops|
    && KeyOk(s.thread[i], s.past[i], s.ids) && CallOk(s.thread[i], s.past[i], s.ids, s.ops, s.contrib[i])
    && RoundOk(s, i)
    && RootOk(s.thread[i], s.past[i], i == s.root, |s.result|, s.ids, s.mem, s.contrib[i])
    && CodesOk(s.codes[i], Over(s, i), s.mem)
  }

  predicate ThreadsOk(s: State) requires SizesOk(s) { forall i :: 0 <= i < s.n ==> ThreadOk(s, i) }

  ghost predicate Inv(s: State) { SizesOk(s) && PlacesOk(s) && ChainOk(s) && ResultsOk(s) && ThreadsOk(s) }

  // ---------- The first state ----------

  lemma InitOk(n: nat, root: nat)
    requires n >= 2 && root < n
    ensures Inv(INIT(n, root))
  {
    var s := INIT(n, root);
    forall h, p | AtPlace(s, h, p) ensures h in s.place && s.place[h] == p {
      if p.Pooled? { assert s.pool[p.depth] == 2 + p.depth; }
    }
    forall h | h in s.place ensures 0 < h < s.brk && AtPlace(s, h, s.place[h]) {
      if h > 1 { assert s.pool[h - 2] == h; }
    }
  }

  // ---------- Consequences ----------

  lemma OwnRound(s: State, i: nat)
    requires Inv(s) && i < s.n
    ensures ThreadOk(s, i)
    ensures ChainAt(s, s.past[i]) && AtPlace(s, s.ids[s.past[i]], Live(s.past[i]))
    ensures s.thread[i].pc.Gather? ==> ChainAt(s, s.past[i] - 1) && AtPlace(s, s.ids[s.past[i] - 1], Live(s.past[i] - 1))
  {
    assert ThreadOk(s, i);
    assert IsLive(s, s.past[i]);
    if s.thread[i].pc.Gather? { assert IsLive(s, s.past[i] - 1); }
  }

  /** Nobody has got past the next round. */
  lemma NextRound(s: State)
    requires Inv(s)
    ensures Above(s.past, Filled(s)) == 0
  {
    forall i | 0 <= i < |s.past| ensures s.past[i] <= Filled(s) { assert ThreadOk(s, i); }
    AboveNone(s.past, Filled(s));
  }

  // ---------- Rows ----------

  /** A row is the same if nobody's part in it changed. */
  lemma RowKept(s: State, s': State, k: nat, e: nat)
    requires Sized(s) && Sized(s') && s'.n == s.n && k < |s.ops| && k < |s'.ops|
    requires forall i :: 0 <= i < s.n ==> Val(s', i, k, e) == Val(s, i, k, e)
    ensures Row(s', k, e) == Row(s, k, e)
  { }

  lemma DataKept(s: State, s': State, k: nat, data: Shared)
    requires SizesOk(s) && SizesOk(s') && s'.n == s.n && k < |s.starter| && k < |s'.starter|
    requires s'.ops[k] == s.ops[k] && s'.mem[k] == s.mem[k] && Width(s', k) == Width(s, k) && DataOk(s, k, data)
    requires forall e: nat, i :: s.mem[k] && e < Width(s, k) && 0 <= i < s.n ==> Val(s', i, k, e) == Val(s, i, k, e)
    ensures DataOk(s', k, data)
  {
    if data.Res? {
      forall e | 0 <= e < |data.vals| ensures data.vals[e] == Fold(s'.ops[k], Row(s', k, e)) { RowKept(s, s', k, e); }
    }
  }

  /** One thread's part changed from nothing to its value: the fold absorbs it. */
  lemma RowGrows(s: State, s': State, i: nat, k: nat, e: nat)
    requires Sized(s) && Sized(s') && s'.n == s.n && k < |s.ops| && s'.ops == s.ops && i < s.n
    requires forall j :: 0 <= j < s.n && j != i ==> Val(s', j, k, e) == Val(s, j, k, e)
    requires Val(s, i, k, e) == Unit(s.ops[k])
    ensures Fold(s.ops[k], Row(s', k, e)) == Apply(s.ops[k], Fold(s.ops[k], Row(s, k, e)), Val(s', i, k, e))
  {
    var v := Val(s', i, k, e);
    assert Row(s', k, e) == Row(s, k, e)[i := v];
    FoldUpdate(s.ops[k], Row(s, k, e), i, v);
  }
}
