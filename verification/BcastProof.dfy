/** The invariant of the broadcast queue, and its proof step by step. */
module BcastProof {
  import opened Counting
  import opened Bcast

  // ---------- Invariant ----------

  /** Round `k` is published or next, and some receiver has not got past it. */
  predicate IsLive(s: State, k: int) {
    0 <= k <= |s.hist| && (k == |s.hist| || Above(s.past, k) < s.n - 1)
  }

  predicate SizesOk(s: State) {
    && s.n >= 2 && s.brk > 0 && |s.ids| == |s.hist| + 1
    && |s.recv| == |s.past| == |s.got| == s.n - 1
  }

  /** Handle `h` is at place `p`, by what the threads, the list and the chain say. */
  predicate At(s: State, h: int, p: Place) {
    match p
    case Free(d) => d < |s.fl| && s.fl[d] == h
    case Live(k) => IsLive(s, k) && k < |s.ids| && s.ids[k] == h
    case Hand => s.root.pc.Has(h)
    case Rest => s.root.pc.HasRest(h, s.n)
    case Leaver(j) => j < |s.recv| && s.recv[j].pc.Leaving() && s.recv[j].cur == h
  }

  /** Every handle is at exactly one place. */
  ghost predicate PlacesOk(s: State) {
    && s.place.Keys == s.heap.Keys
    && (forall h :: h in s.place ==> 0 < h < s.brk && At(s, h, s.place[h]))
    && (forall h, p :: At(s, h, p) ==> h in s.place && s.place[h] == p)
  }

  function Top(fl: seq<int>): int { if fl == [] then NULL else fl[|fl| - 1] }
  function Below(fl: seq<int>, d: nat): int requires d < |fl| { if d == 0 then NULL else fl[d - 1] }

  /** The free list in memory is the free list of the history. */
  predicate FreeOk(s: State) {
    && s.free == Top(s.fl)
    && (forall d :: 0 <= d < |s.fl| ==> FreeAt(s, d))
  }

  predicate FreeAt(s: State, d: nat) requires d < |s.fl| {
    s.fl[d] in s.heap && s.heap[s.fl[d]].next == Below(s.fl, d)
  }

  /** What the handle of a live round holds; the next round's handle is a closed gate. */
  predicate ChainAt(s: State, k: nat) requires k < |s.ids| && |s.ids| == |s.hist| + 1 {
    && s.ids[k] in s.heap
    && (if k < |s.hist| then s.heap[s.ids[k]] == Node(s.ids[k + 1], 1 + Above(s.past, k), s.hist[k])
        else s.heap[s.ids[k]].avail == 0)
  }

  predicate ChainOk(s: State) requires SizesOk(s) {
    && (forall k :: 0 <= k <= |s.hist| && IsLive(s, k) ==> ChainAt(s, k))
    && (IsLive(s, 0) ==> s.first == s.ids[0])
    && |s.sent| == |s.hist| + (if s.root.pc.Out? then 0 else 1)
    && (forall k :: 0 <= k < |s.hist| ==> s.hist[k] == NoData || s.hist[k] == Buf(s.sent[k]))
  }

  predicate RootOk(s: State) requires SizesOk(s) {
    var r := s.root;
    && (r.key == s.ids[|s.hist|] || (r.key == NULL && |s.hist| == 0))
    && (!r.pc.Out? ==> r.cur == s.ids[|s.hist|] && |s.sent| == |s.hist| + 1 && r.data == s.sent[|s.hist|])
    && (r.pc.Succ? ==> IsFree(s, r.pc.ret))
    && (r.pc.Swap? ==> IsFree(s, r.pc.ret) && r.pc.ret in s.heap && s.heap[r.pc.ret].next == r.pc.succ)
    && ((r.pc.Tail? || r.pc.Splice?) ==>
          forall h :: r.pc.item < h < r.pc.item + s.n - 1 ==> h in s.heap && s.heap[h].next == h + 1)
    && (r.pc.Publish? ==>
          && r.cur in s.heap && s.heap[r.cur].next == r.pc.item
          && r.pc.item in s.heap && s.heap[r.pc.item].avail == 0
          && (s.heap[r.cur].data == NoData || s.heap[r.cur].data == Buf(r.data)))
  }

  predicate IsFree(s: State, h: int) { h in s.place && s.place[h].Free? }

  predicate RecvOk(s: State, j: nat) requires SizesOk(s) && j < s.n - 1 {
    var r, m := s.recv[j], s.past[j];
    && m <= |s.hist|
    && |s.got[j]| == m + (if r.pc.SetKey? || r.pc.Count? then 1 else 0)
    && |s.got[j]| <= |s.hist|
    && (forall k :: 0 <= k < |s.got[j]| ==> s.got[j][k] == Received(s.hist[k], s.got[j][k].before))
    && (r.pc.Counting() ==> r.cur == s.ids[m])
    && (r.pc.Copy? ==> m < |s.hist|)
    && (r.pc.SetKey? ==> s.got[j][m].ret == r.pc.ret)
    && (r.pc.Count? ==> s.got[j][m].ret == r.pc.ret)
    && (if r.pc.Count? then r.key == s.ids[m + 1] else r.key == s.ids[m] || (m == 0 && r.key == NULL))
    && (r.pc.Leaving() ==> m > 0 && !IsLive(s, m - 1))
    && (r.pc.Last? ==> LastOk(s, j))
  }

  /** The last to leave still holds the published data, and knows if there are any. */
  predicate LastOk(s: State, j: nat) requires SizesOk(s) && j < s.n - 1 && s.recv[j].pc.Last? && 0 < s.past[j] <= |s.hist| {
    var r, m := s.recv[j], s.past[j];
    && r.cur in s.heap && s.heap[r.cur].data == s.hist[m - 1] && s.heap[r.cur].next == s.ids[m]
    && (r.pc.ret == 0 <==> s.hist[m - 1].Buf?)
  }

  predicate RecvsOk(s: State) requires SizesOk(s) { forall j :: 0 <= j < s.n - 1 ==> RecvOk(s, j) }

  ghost predicate Inv(s: State) {
    SizesOk(s) && PlacesOk(s) && FreeOk(s) && ChainOk(s) && RootOk(s) && RecvsOk(s)
  }

  // ---------- The first state ----------

  lemma {:induction false} ZerosAbove(past: seq<nat>, k: int)
    requires k >= 0 && forall j :: 0 <= j < |past| ==> past[j] == 0
    ensures Above(past, k) == 0
  {
    if past != [] { ZerosAbove(past[..|past| - 1], k); }
  }

  lemma InitPlacesOk(n: nat)
    requires n >= 2
    ensures PlacesOk(INIT(n)) && FreeOk(INIT(n))
  {
    var s := INIT(n);
    ZerosAbove(s.past, 0);
    assert s.fl[n - 1] == 2;
    forall h, p | At(s, h, p) ensures h in s.place && s.place[h] == p {
      if p.Free? { assert s.fl[p.depth] == n + 1 - p.depth; }
    }
    forall h | h in s.place ensures 0 < h < s.brk && At(s, h, s.place[h]) {
      if h > 1 { assert s.fl[n + 1 - h] == h; }
    }
    forall d | 0 <= d < |s.fl| ensures FreeAt(s, d) { assert s.fl[d] == n + 1 - d; }
  }

  lemma InitOk(n: nat)
    requires n >= 2
    ensures Inv(INIT(n))
  {
    InitPlacesOk(n);
    hide PlacesOk, FreeOk;
    ZerosAbove(INIT(n).past, 0);
  }

  // ---------- Consequences ----------

  /** The round that a receiver is in is live: it has not got past it itself. */
  lemma OwnRound(s: State, j: nat)
    requires Inv(s) && j < s.n - 1
    ensures IsLive(s, s.past[j]) && ChainAt(s, s.past[j])
    ensures At(s, s.ids[s.past[j]], Live(s.past[j]))
  {
    assert RecvOk(s, j);
    AboveAll(s.past, s.past[j]);
  }

  /** Nobody has got past the next round. */
  lemma NextRound(s: State)
    requires Inv(s)
    ensures Above(s.past, |s.hist|) == 0 && ChainAt(s, |s.hist|) && At(s, s.ids[|s.hist|], Live(|s.hist|))
  {
    forall j | 0 <= j < |s.past| ensures s.past[j] <= |s.hist| { assert RecvOk(s, j); }
    AboveNone(s.past, |s.hist|);
  }

  // ---------- The root's steps ----------

  lemma RootEnterOk(s: State, data: seq<int>)
    requires Inv(s) && Enabled(s, RootEnter(data))
    ensures Inv(Step(s, RootEnter(data)))
  {
    var s' := Step(s, RootEnter(data));
    assert At(s, s.ids[|s.hist|], Live(|s.hist|));
    assert |s.hist| == 0 ==> IsLive(s, 0);
    forall h, p | At(s', h, p) ensures At(s, h, p) { }
    forall h, p | At(s, h, p) ensures At(s', h, p) { }
    forall j | 0 <= j < s.n - 1 ensures RecvOk(s', j) { assert RecvOk(s, j); }
    forall k | 0 <= k <= |s.hist| && IsLive(s', k) ensures ChainAt(s', k) { assert IsLive(s, k) && ChainAt(s, k); }
    forall d | 0 <= d < |s.fl| ensures FreeAt(s', d) { assert FreeAt(s, d); }
  }

  lemma HeadOk(s: State)
    requires Inv(s) && Enabled(s, RootHead)
    ensures Inv(Step(s, RootHead))
  {
    var s' := Step(s, RootHead);
    forall h, p | At(s', h, p) ensures At(s, h, p) { }
    forall h, p | At(s, h, p) ensures At(s', h, p) { }
    forall j | 0 <= j < s.n - 1 ensures RecvOk(s', j) { assert RecvOk(s, j); }
    forall k | 0 <= k <= |s.hist| && IsLive(s', k) ensures ChainAt(s', k) { assert IsLive(s, k) && ChainAt(s, k); }
    forall d | 0 <= d < |s.fl| ensures FreeAt(s', d) { assert FreeAt(s, d); }
    if s.fl != [] { assert At(s, s.free, Free(|s.fl| - 1)); }
  }

  lemma SuccOk(s: State)
    requires Inv(s) && Enabled(s, RootSucc)
    ensures Inv(Step(s, RootSucc))
  {
    var s' := Step(s, RootSucc);
    forall h, p | At(s', h, p) ensures At(s, h, p) { }
    forall h, p | At(s, h, p) ensures At(s', h, p) { }
    forall j | 0 <= j < s.n - 1 ensures RecvOk(s', j) { assert RecvOk(s, j); }
    forall k | 0 <= k <= |s.hist| && IsLive(s', k) ensures ChainAt(s', k) { assert IsLive(s, k) && ChainAt(s, k); }
    forall d | 0 <= d < |s.fl| ensures FreeAt(s', d) { assert FreeAt(s, d); }
  }

  /** The root changed only what is in its own hands. */
  ghost predicate OwnOnly(s: State, s': State) {
    && s'.n == s.n && s'.recv == s.recv && s'.past == s.past && s'.got == s.got && s'.ids == s.ids && s'.hist == s.hist
    && (forall h :: h in s.heap && h in s.place && !s.place[h].Hand? && !s.place[h].Rest? ==> h in s'.heap && s'.heap[h] == s.heap[h])
  }

  lemma OwnRecvs(s: State, s': State)
    requires Inv(s) && OwnOnly(s, s')
    ensures SizesOk(s') || s'.brk <= 0
    ensures s'.brk > 0 ==> RecvsOk(s')
  {
    if s'.brk > 0 {
      forall j | 0 <= j < s.n - 1 ensures RecvOk(s', j) {
        assert RecvOk(s, j);
        assert s.recv[j].pc.Leaving() ==> At(s, s.recv[j].cur, Leaver(j));
      }
    }
  }

  lemma OwnChain(s: State, s': State, k: nat)
    requires Inv(s) && OwnOnly(s, s') && k <= |s.hist| && IsLive(s, k)
    ensures ChainAt(s', k)
  {
    assert ChainAt(s, k) && At(s, s.ids[k], Live(k));
  }

  lemma OwnFree(s: State, s': State, d: nat)
    requires Inv(s) && OwnOnly(s, s') && d < |s.fl|
    ensures s.fl[d] in s'.heap && s'.heap[s.fl[d]].next == Below(s.fl, d)
  {
    assert FreeAt(s, d) && At(s, s.fl[d], Free(d));
  }

  lemma SwapOk(s: State)
    requires Inv(s) && Enabled(s, RootSwap)
    ensures Inv(Step(s, RootSwap))
  {
    var s' := Step(s, RootSwap);
    OwnRecvs(s, s');
    SwapPlacesOk(s);
    hide PlacesOk;
    forall k | 0 <= k <= |s.hist| && IsLive(s', k) ensures ChainAt(s', k) { OwnChain(s, s', k); }
    forall d | 0 <= d < |s'.fl| ensures FreeAt(s', d) { OwnFree(s, s', d); }
  }

  /** If the head is the one read before, the handle is on top, and the successor read before is below it. */
  lemma SwapPlacesOk(s: State)
    requires Inv(s) && Enabled(s, RootSwap)
    ensures PlacesOk(Step(s, RootSwap)) && Step(s, RootSwap).free == Top(Step(s, RootSwap).fl)
    ensures s.free == s.root.pc.ret ==> s.fl != []
  {
    var s' := Step(s, RootSwap);
    var ret, top := s.root.pc.ret, |s.fl| - 1;
    if s.free == ret {
      assert At(s, ret, s.place[ret]);
      assert FreeAt(s, s.place[ret].depth);
      assert At(s, ret, Free(top));
    }
    hide ChainOk, RecvsOk;
    forall h, p | At(s', h, p) ensures h in s'.place && s'.place[h] == p {
      if h != ret || p != Hand { assert At(s, h, p); }
    }
    forall h | h in s'.place ensures 0 < h < s'.brk && At(s', h, s'.place[h]) { assert At(s, h, s.place[h]); }
  }

  lemma ChunkPlacesOk(s: State)
    requires Inv(s) && Enabled(s, RootChunk)
    ensures PlacesOk(Step(s, RootChunk))
  {
    hide ChainOk, RecvsOk, FreeOk;
    var s' := Step(s, RootChunk);
    forall h, p | At(s', h, p) ensures h in s'.place && s'.place[h] == p {
      if !p.Hand? && !p.Rest? { assert At(s, h, p); }
    }
    forall h | h in s'.place ensures 0 < h < s'.brk && At(s', h, s'.place[h]) {
      if h in s.place { assert At(s, h, s.place[h]); }
    }
  }

  /** The handles of a new chunk are linked, and the root knows. */
  lemma ChunkRootOk(s: State)
    requires Inv(s) && Enabled(s, RootChunk)
    ensures SizesOk(ChunkStep(s)) && RootOk(ChunkStep(s)) && OwnOnly(s, ChunkStep(s))
  {
    hide PlacesOk, FreeOk, ChainOk, RecvsOk, ChunkPlaces;
    assert forall h :: h in s.heap ==> 0 < h < s.brk by { HeapBelow(s); }
  }

  lemma HeapBelow(s: State)
    requires PlacesOk(s)
    ensures forall h :: h in s.heap ==> 0 < h < s.brk
  { }

  lemma ChunkOk(s: State)
    requires Inv(s) && Enabled(s, RootChunk)
    ensures Inv(Step(s, RootChunk))
  {
    var s' := ChunkStep(s);
    ChunkRootOk(s);
    OwnRecvs(s, s');
    ChunkPlacesOk(s);
    hide PlacesOk, RecvsOk, RootOk, OwnOnly, ChunkPlaces, ChunkNodes, At, RecvOk;
    forall k | 0 <= k <= |s.hist| && IsLive(s', k) ensures ChainAt(s', k) { OwnChain(s, s', k); }
    forall d | 0 <= d < |s.fl| ensures FreeAt(s', d) { OwnFree(s, s', d); }
  }

  lemma TailPlacesOk(s: State)
    requires Inv(s) && Enabled(s, RootTail)
    ensures PlacesOk(Step(s, RootTail))
  {
    hide ChainOk, RecvsOk, FreeOk, RootOk;
    var s' := Step(s, RootTail);
    forall h, p | At(s', h, p) ensures h in s'.place && s'.place[h] == p { assert At(s, h, p); }
    forall h | h in s'.place ensures 0 < h < s'.brk && At(s', h, s'.place[h]) { assert At(s, h, s.place[h]); }
  }

  lemma TailOk(s: State)
    requires Inv(s) && Enabled(s, RootTail)
    ensures Inv(Step(s, RootTail))
  {
    var s' := Step(s, RootTail);
    assert At(s, s.root.pc.item + s.n - 1, Rest);
    OwnRecvs(s, s');
    TailPlacesOk(s);
    hide PlacesOk, RecvsOk;
    forall k | 0 <= k <= |s.hist| && IsLive(s', k) ensures ChainAt(s', k) { OwnChain(s, s', k); }
    forall d | 0 <= d < |s.fl| ensures FreeAt(s', d) { OwnFree(s, s', d); }
  }

  /** Another thread moved the head: the root has to read it again. */
  lemma SpliceMissed(s: State)
    requires Inv(s) && Enabled(s, RootSplice) && s.free != s.heap[s.root.pc.item + s.n - 1].next
    ensures PlacesOk(Step(s, RootSplice)) && FreeOk(Step(s, RootSplice))
  {
    var s' := Step(s, RootSplice);
    hide ChainOk, RecvsOk, RootOk;
    forall h, p | At(s', h, p) ensures h in s'.place && s'.place[h] == p { assert At(s, h, p); }
    forall h | h in s'.place ensures 0 < h < s'.brk && At(s', h, s'.place[h]) { assert At(s, h, s.place[h]); }
    forall d | 0 <= d < |s.fl| ensures FreeAt(s', d) { assert FreeAt(s, d); }
  }

  lemma SpliceChainOk(s: State)
    requires Inv(s) && Enabled(s, RootSplice)
    ensures SizesOk(Step(s, RootSplice)) && RootOk(Step(s, RootSplice)) && ChainOk(Step(s, RootSplice))
  {
    var s' := Step(s, RootSplice);
    hide PlacesOk, RecvsOk, FreeOk, Reversed, SplicePlaces;
    forall k | 0 <= k <= |s.hist| && IsLive(s', k) ensures ChainAt(s', k) { assert IsLive(s, k) && ChainAt(s, k); }
  }

  lemma SpliceOk(s: State)
    requires Inv(s) && Enabled(s, RootSplice)
    ensures Inv(Step(s, RootSplice))
  {
    hide Reversed, SplicePlaces, PlacesOk, RecvsOk, FreeOk, RootOk, ChainOk;
    OwnRecvs(s, Step(s, RootSplice));
    SpliceChainOk(s);
    if s.free == s.heap[s.root.pc.item + s.n - 1].next {
      SpliceFreeOk(s);
      SplicePlacesOk(s);
    } else {
      SpliceMissed(s);
    }
  }

  /** The spliced chunk is on top of the free list, and its last handle leads to the old top. */
  lemma SpliceFreeOk(s: State)
    requires Inv(s) && Enabled(s, RootSplice) && s.free == s.heap[s.root.pc.item + s.n - 1].next
    ensures FreeOk(Step(s, RootSplice))
    ensures var fl := Step(s, RootSplice).fl;
            |fl| == |s.fl| + s.n - 1
            && (forall d :: 0 <= d < |fl| ==> fl[d] == if d < |s.fl| then s.fl[d] else s.root.pc.item + s.n - 1 - (d - |s.fl|))
  {
    var s' := Step(s, RootSplice);
    forall d | 0 <= d < |s'.fl| ensures FreeAt(s', d) { SpliceFreeAt(s, d); }
  }

  lemma SpliceFreeAt(s: State, d: nat)
    requires Inv(s) && Enabled(s, RootSplice) && s.free == s.heap[s.root.pc.item + s.n - 1].next
    requires d < |Step(s, RootSplice).fl|
    ensures FreeAt(Step(s, RootSplice), d)
  {
    var s' := Step(s, RootSplice);
    if d < |s.fl| {
      OwnFree(s, s', d);
    } else {
      var h := s.root.pc.item + s.n - 1 - (d - |s.fl|);
      assert At(s, h, Rest);
      hide PlacesOk, ChainOk, RecvsOk;
      assert s'.fl[d] == h;
      if d > |s.fl| { assert s'.fl[d - 1] == h + 1; }
    }
  }

  lemma SplicePlace(s: State, h: int)
    requires Inv(s) && Enabled(s, RootSplice) && s.free == s.heap[s.root.pc.item + s.n - 1].next && h in s.place
    ensures var s' := Step(s, RootSplice); 0 < h < s'.brk && At(s', h, s'.place[h])
  {
    var s' := Step(s, RootSplice);
    var item, f := s.root.pc.item, |s.fl|;
    SpliceFreeOk(s);
    assert At(s, h, s.place[h]);
    hide ChainOk, RecvsOk, RootOk, FreeOk, Reversed;
    if item < h < item + s.n {
      assert s'.place[h] == Free(f + item + s.n - 1 - h);
      assert s'.fl[f + item + s.n - 1 - h] == h;
    } else {
      assert s'.place[h] == s.place[h] && !s.place[h].Rest?;
    }
  }

  lemma SplicePlacesOk(s: State)
    requires Inv(s) && Enabled(s, RootSplice) && s.free == s.heap[s.root.pc.item + s.n - 1].next
    ensures PlacesOk(Step(s, RootSplice))
  {
    var s' := Step(s, RootSplice);
    forall h | h in s'.place ensures 0 < h < s'.brk && At(s', h, s'.place[h]) { SplicePlace(s, h); }
    forall h, p | At(s', h, p) ensures h in s'.place && s'.place[h] == p { SplicePlaceBack(s, h, p); }
  }

  lemma SplicePlaceBack(s: State, h: int, p: Place)
    requires Inv(s) && Enabled(s, RootSplice) && s.free == s.heap[s.root.pc.item + s.n - 1].next && At(Step(s, RootSplice), h, p)
    ensures var s' := Step(s, RootSplice); h in s'.place && s'.place[h] == p
  {
    var item, f := s.root.pc.item, |s.fl|;
    SpliceFreeOk(s);
    hide ChainOk, RecvsOk, RootOk, FreeOk, Reversed;
    assert At(s, h, if p.Free? && p.depth >= f then Rest else p);
    if item < h < item + s.n { assert At(s, h, Rest); }
  }

  lemma FillOk(s: State, mem: bool)
    requires Inv(s) && Enabled(s, RootFill(mem))
    ensures Inv(Step(s, RootFill(mem)))
  {
    var s' := Step(s, RootFill(mem));
    FillPlacesOk(s, mem);
    hide PlacesOk;
    forall j | 0 <= j < s.n - 1 ensures RecvOk(s', j) { FillRecvOk(s, mem, j); }
    forall k | 0 <= k <= |s.hist| && IsLive(s', k) ensures ChainAt(s', k) { FillChainOk(s, mem, k); }
    forall d | 0 <= d < |s.fl| ensures FreeAt(s', d) { FillFreeOk(s, mem, d); }
  }

  lemma FillPlacesOk(s: State, mem: bool)
    requires Inv(s) && Enabled(s, RootFill(mem))
    ensures PlacesOk(Step(s, RootFill(mem))) && s.root.pc.item != s.root.cur
  {
    var s' := Step(s, RootFill(mem));
    NextRound(s);
    assert At(s, s.root.pc.item, Hand);
    forall h, p | At(s', h, p) ensures h in s'.place && s'.place[h] == p { assert At(s, h, p); }
    forall h | h in s'.place ensures 0 < h < s'.brk && At(s', h, s'.place[h]) { assert At(s, h, s.place[h]); }
  }

  lemma FillRecvOk(s: State, mem: bool, j: nat)
    requires Inv(s) && Enabled(s, RootFill(mem)) && j < s.n - 1
    ensures RecvOk(Step(s, RootFill(mem)), j)
  {
    NextRound(s);
    assert RecvOk(s, j) && At(s, s.root.pc.item, Hand);
    assert s.recv[j].pc.Leaving() ==> At(s, s.recv[j].cur, Leaver(j));
  }

  lemma FillChainOk(s: State, mem: bool, k: nat)
    requires Inv(s) && Enabled(s, RootFill(mem)) && IsLive(s, k)
    ensures ChainAt(Step(s, RootFill(mem)), k)
  {
    NextRound(s);
    assert At(s, s.root.pc.item, Hand) && ChainAt(s, k) && At(s, s.ids[k], Live(k));
  }

  lemma FillFreeOk(s: State, mem: bool, d: nat)
    requires Inv(s) && Enabled(s, RootFill(mem)) && d < |s.fl|
    ensures FreeAt(Step(s, RootFill(mem)), d)
  {
    NextRound(s);
    assert At(s, s.root.pc.item, Hand) && FreeAt(s, d) && At(s, s.fl[d], Free(d));
  }

  lemma PublishOk(s: State)
    requires Inv(s) && Enabled(s, RootPublish)
    ensures Inv(Step(s, RootPublish))
  {
    var s' := Step(s, RootPublish);
    var m := |s.hist|;
    PublishPlacesOk(s);
    NextRound(s);
    assert At(s, s.root.pc.item, Hand);
    forall d | 0 <= d < |s.fl| ensures FreeAt(s', d) { assert FreeAt(s, d) && At(s, s.fl[d], Free(d)); }
    hide PlacesOk;
    forall j | 0 <= j < s.n - 1 ensures RecvOk(s', j) { PublishRecvOk(s, j); }
    forall k | 0 <= k <= m + 1 && IsLive(s', k) ensures ChainAt(s', k) { PublishChainOk(s, k); }
    assert IsLive(s', 0) ==> IsLive(s, 0);
  }

  lemma PublishPlacesOk(s: State)
    requires Inv(s) && Enabled(s, RootPublish)
    ensures PlacesOk(Step(s, RootPublish))
  {
    var s' := Step(s, RootPublish);
    NextRound(s);
    assert At(s, s.root.pc.item, Hand);
    forall h, p | At(s', h, p) ensures h in s'.place && s'.place[h] == p {
      if p != Live(|s.hist| + 1) { assert At(s, h, p); }
    }
    forall h | h in s'.place ensures 0 < h < s'.brk && At(s', h, s'.place[h]) { assert At(s, h, s.place[h]); }
  }

  lemma PublishRecvOk(s: State, j: nat)
    requires Inv(s) && Enabled(s, RootPublish) && j < s.n - 1
    ensures SizesOk(Step(s, RootPublish)) && RecvOk(Step(s, RootPublish), j)
  {
    NextRound(s);
    assert RecvOk(s, j);
    assert s.recv[j].pc.Leaving() ==> At(s, s.recv[j].cur, Leaver(j));
  }

  lemma PublishChainOk(s: State, k: nat)
    requires Inv(s) && Enabled(s, RootPublish) && IsLive(Step(s, RootPublish), k)
    ensures ChainAt(Step(s, RootPublish), k)
  {
    NextRound(s);
    assert At(s, s.root.pc.item, Hand);
    if k <= |s.hist| { assert IsLive(s, k) && ChainAt(s, k) && At(s, s.ids[k], Live(k)); }
  }

  // ---------- The receivers' steps ----------

  /** Receiver `j` changed only its own stance. */
  ghost predicate StanceOnly(s: State, s': State, j: nat) {
    && j < |s.recv| && s' == s.(recv := s'.recv, got := s'.got)
    && |s'.recv| == |s.recv| && |s'.got| == |s.got|
    && (forall i :: 0 <= i < |s.recv| && i != j ==> s'.recv[i] == s.recv[i])
    && (forall i :: 0 <= i < |s.got| && i != j ==> s'.got[i] == s.got[i])
    && !s.recv[j].pc.Leaving() && !s'.recv[j].pc.Leaving()
  }

  lemma StanceOk(s: State, s': State, j: nat)
    requires Inv(s) && StanceOnly(s, s', j) && RecvOk(s', j)
    ensures Inv(s')
  {
    StancePlaces(s, s', j);
    hide PlacesOk;
    forall k | 0 <= k <= |s.hist| && IsLive(s', k) ensures ChainAt(s', k) { assert IsLive(s, k) && ChainAt(s, k); }
    forall d | 0 <= d < |s.fl| ensures FreeAt(s', d) { assert FreeAt(s, d); }
    forall i | 0 <= i < s.n - 1 && i != j ensures RecvOk(s', i) { assert RecvOk(s, i); }
  }

  lemma StancePlaces(s: State, s': State, j: nat)
    requires Inv(s) && StanceOnly(s, s', j)
    ensures PlacesOk(s')
  {
    hide ChainOk, RecvsOk, RootOk, FreeOk;
    forall h, p | At(s', h, p) ensures h in s'.place && s'.place[h] == p { assert At(s, h, p); }
    forall h | h in s'.place ensures 0 < h < s'.brk && At(s', h, s'.place[h]) { assert At(s, h, s.place[h]); }
  }

  lemma EnterOk(s: State, j: nat, buf: seq<int>)
    requires Inv(s) && Enabled(s, RecvEnter(j, buf))
    ensures Inv(Step(s, RecvEnter(j, buf)))
  {
    OwnRound(s, j);
    assert RecvOk(s, j);
    StanceOk(s, Step(s, RecvEnter(j, buf)), j);
  }

  lemma SeeOk(s: State, j: nat)
    requires Inv(s) && Enabled(s, RecvSee(j))
    ensures Inv(Step(s, RecvSee(j)))
  {
    OwnRound(s, j);
    assert RecvOk(s, j);
    StanceOk(s, Step(s, RecvSee(j)), j);
  }

  lemma CopyOk(s: State, j: nat)
    requires Inv(s) && Enabled(s, RecvCopy(j))
    ensures Inv(Step(s, RecvCopy(j)))
  {
    OwnRound(s, j);
    assert RecvOk(s, j);
    StanceOk(s, Step(s, RecvCopy(j)), j);
  }

  lemma SetKeyOk(s: State, j: nat)
    requires Inv(s) && Enabled(s, RecvSetKey(j))
    ensures Inv(Step(s, RecvSetKey(j)))
  {
    OwnRound(s, j);
    assert RecvOk(s, j);
    StanceOk(s, Step(s, RecvSetKey(j)), j);
  }

  /** What the count of receiver `j` does to the counts of the rounds */
  lemma Counted(s: State, j: nat, k: int)
    requires Inv(s) && Enabled(s, RecvCount(j))
    ensures var s' := Step(s, RecvCount(j));
            var m := s.past[j];
            && Above(s'.past, k) == Above(s.past, k) + (if k == m then 1 else 0)
            && (IsLive(s', k) <==> IsLive(s, k) && !(k == m && s'.recv[j].pc.Last?))
  {
    OwnRound(s, j);
    assert RecvOk(s, j);
    AboveBump(s.past, j, k);
  }

  lemma CountPlacesOk(s: State, j: nat)
    requires Inv(s) && Enabled(s, RecvCount(j))
    ensures PlacesOk(Step(s, RecvCount(j)))
  {
    var s' := Step(s, RecvCount(j));
    OwnRound(s, j);
    assert RecvOk(s, j);
    hide ChainOk, RootOk, FreeOk, RecvsOk, Above, IsLive, LastOk, Received;
    forall h, p | At(s', h, p) ensures h in s'.place && s'.place[h] == p {
      if p.Live? { Counted(s, j, p.k); }
      if p != Leaver(j) { assert At(s, h, p); }
    }
    forall h | h in s'.place ensures 0 < h < s'.brk && At(s', h, s'.place[h]) {
      assert At(s, h, s.place[h]);
      if s.place[h].Live? { Counted(s, j, s.place[h].k); }
    }
  }

  /** Who counts itself has got past its round, and knows whether it is the last. */
  lemma CountSelfOk(s: State, j: nat)
    requires Inv(s) && Enabled(s, RecvCount(j))
    ensures SizesOk(Step(s, RecvCount(j))) && RecvOk(Step(s, RecvCount(j)), j)
  {
    OwnRound(s, j);
    assert RecvOk(s, j);
    Counted(s, j, s.past[j]);
    hide PlacesOk, ChainOk, RootOk, FreeOk, RecvsOk, Above, At, IsLive;
  }

  /** The handles that other receivers hold are not the one that is counted on. */
  lemma CountApart(s: State, j: nat, i: nat)
    requires Inv(s) && Enabled(s, RecvCount(j)) && i < s.n - 1 && s.recv[i].pc.Leaving()
    ensures s.recv[i].cur != s.recv[j].cur
  {
    OwnRound(s, j);
    hide ChainOk, RootOk, FreeOk;
    assert RecvOk(s, j) && At(s, s.recv[i].cur, Leaver(i));
  }

  lemma CountOtherOk(s: State, j: nat, i: nat)
    requires Inv(s) && Enabled(s, RecvCount(j)) && i < s.n - 1 && i != j
    ensures SizesOk(Step(s, RecvCount(j))) && RecvOk(Step(s, RecvCount(j)), i)
  {
    assert RecvOk(s, i);
    if s.recv[i].pc.Leaving() {
      Counted(s, j, s.past[i] - 1);
      CountApart(s, j, i);
    }
    hide PlacesOk, ChainOk, RootOk, FreeOk, RecvsOk, Above, IsLive, Received, At;
  }

  lemma CountChainOk(s: State, j: nat, k: nat)
    requires Inv(s) && Enabled(s, RecvCount(j)) && IsLive(Step(s, RecvCount(j)), k)
    ensures ChainAt(Step(s, RecvCount(j)), k)
  {
    OwnRound(s, j);
    assert RecvOk(s, j);
    Counted(s, j, k);
    assert ChainAt(s, k) && At(s, s.ids[k], Live(k));
  }

  lemma CountFreeOk(s: State, j: nat, d: nat)
    requires Inv(s) && Enabled(s, RecvCount(j)) && d < |s.fl|
    ensures FreeAt(Step(s, RecvCount(j)), d)
  {
    OwnRound(s, j);
    assert RecvOk(s, j);
    assert FreeAt(s, d) && At(s, s.fl[d], Free(d));
  }

  lemma CountRootOk(s: State, j: nat)
    requires Inv(s) && Enabled(s, RecvCount(j))
    ensures SizesOk(Step(s, RecvCount(j))) && RootOk(Step(s, RecvCount(j)))
  {
    OwnRound(s, j);
    assert RecvOk(s, j);
    var m := s.past[j];
    if s.root.pc.Publish? {
      NextRound(s);
      assert At(s, s.root.pc.item, Hand);
    }
    forall h | (s.root.pc.Tail? || s.root.pc.Splice?) && s.root.pc.item < h < s.root.pc.item + s.n - 1
      ensures h in s.heap && h != s.ids[m] { assert At(s, h, Rest); }
  }

  lemma CountOk(s: State, j: nat)
    requires Inv(s) && Enabled(s, RecvCount(j))
    ensures Inv(Step(s, RecvCount(j)))
  {
    var s' := Step(s, RecvCount(j));
    OwnRound(s, j);
    assert RecvOk(s, j);
    CountPlacesOk(s, j);
    forall i | 0 <= i < s.n - 1 ensures RecvOk(s', i) {
      if i == j { CountSelfOk(s, j); } else { CountOtherOk(s, j, i); }
    }
    hide PlacesOk, RecvsOk;
    forall k | 0 <= k <= |s.hist| && IsLive(s', k) ensures ChainAt(s', k) { CountChainOk(s, j, k); }
    forall d | 0 <= d < |s.fl| ensures FreeAt(s', d) { CountFreeOk(s, j, d); }
    Counted(s, j, 0);
    CountRootOk(s, j);
  }

  lemma LastStepOk(s: State, j: nat)
    requires Inv(s) && Enabled(s, RecvLast(j))
    ensures Inv(Step(s, RecvLast(j)))
  {
    var s' := Step(s, RecvLast(j));
    assert RecvOk(s, j) && At(s, s.recv[j].cur, Leaver(j));
    AboveFalls(s.past, 0, s.past[j] - 1);
    LeaverFrame(s, s', j);
  }

  lemma RereadOk(s: State, j: nat)
    requires Inv(s) && Enabled(s, RecvReread(j))
    ensures Inv(Step(s, RecvReread(j)))
  {
    assert RecvOk(s, j) && At(s, s.recv[j].cur, Leaver(j));
    hide ChainOk, RecvsOk, RootOk, FreeOk, PlacesOk;
    LeaverFrame(s, Step(s, RecvReread(j)), j);
  }

  /** A leaver changed only its own stance and the handle in its hands. */
  ghost predicate LeaverOnly(s: State, s': State, j: nat) {
    && j < |s.recv| && s' == s.(heap := s'.heap, first := s'.first, recv := s'.recv) && |s'.recv| == |s.recv|
    && s'.heap.Keys == s.heap.Keys
    && (forall h :: h in s.heap && h != s.recv[j].cur ==> s'.heap[h] == s.heap[h])
    && (forall i :: 0 <= i < |s.recv| && i != j ==> s'.recv[i] == s.recv[i])
    && s.recv[j].pc.Leaving() && s'.recv[j].pc.Leaving() && s'.recv[j].cur == s.recv[j].cur
  }

  lemma LeaverFrame(s: State, s': State, j: nat)
    requires Inv(s) && LeaverOnly(s, s', j) && RecvOk(s', j)
    requires IsLive(s, 0) ==> s'.first == s.first
    ensures Inv(s')
  {
    LeaverPlaces(s, s', j);
    LeaverRoot(s, s', j);
    forall k | 0 <= k <= |s.hist| && IsLive(s', k) ensures ChainAt(s', k) { LeaverChain(s, s', j, k); }
    forall d | 0 <= d < |s.fl| ensures FreeAt(s', d) { LeaverFree(s, s', j, d); }
    forall i | 0 <= i < s.n - 1 && i != j ensures RecvOk(s', i) { LeaverRecv(s, s', j, i); }
  }

  lemma LeaverPlaces(s: State, s': State, j: nat)
    requires Inv(s) && LeaverOnly(s, s', j)
    ensures PlacesOk(s')
  {
    hide ChainOk, RecvsOk, RootOk, FreeOk;
    forall h, p | At(s', h, p) ensures h in s'.place && s'.place[h] == p { assert At(s, h, p); }
    forall h | h in s'.place ensures 0 < h < s'.brk && At(s', h, s'.place[h]) { assert At(s, h, s.place[h]); }
  }

  lemma LeaverChain(s: State, s': State, j: nat, k: nat)
    requires Inv(s) && LeaverOnly(s, s', j) && IsLive(s, k)
    ensures ChainAt(s', k)
  {
    assert ChainAt(s, k) && At(s, s.ids[k], Live(k)) && At(s, s.recv[j].cur, Leaver(j));
  }

  lemma LeaverFree(s: State, s': State, j: nat, d: nat)
    requires Inv(s) && LeaverOnly(s, s', j) && d < |s.fl|
    ensures FreeAt(s', d)
  {
    assert FreeAt(s, d) && At(s, s.fl[d], Free(d)) && At(s, s.recv[j].cur, Leaver(j));
  }

  lemma LeaverRecv(s: State, s': State, j: nat, i: nat)
    requires Inv(s) && LeaverOnly(s, s', j) && i < s.n - 1 && i != j
    ensures SizesOk(s') && RecvOk(s', i)
  {
    assert RecvOk(s, i) && At(s, s.recv[j].cur, Leaver(j));
    assert s.recv[i].pc.Leaving() ==> At(s, s.recv[i].cur, Leaver(i));
  }

  lemma LeaverRoot(s: State, s': State, j: nat)
    requires Inv(s) && LeaverOnly(s, s', j)
    ensures SizesOk(s') && RootOk(s')
  {
    var c := s.recv[j].cur;
    assert At(s, s.ids[|s.hist|], Live(|s.hist|)) && At(s, c, Leaver(j));
    if s.root.pc.Publish? { assert At(s, s.root.pc.item, Hand); }
    forall h | (s.root.pc.Tail? || s.root.pc.Splice?) && s.root.pc.item < h < s.root.pc.item + s.n - 1
      ensures h in s.heap && h != c { assert At(s, h, Rest); }
  }

  lemma PushOk(s: State, j: nat)
    requires Inv(s) && Enabled(s, RecvPush(j))
    ensures Inv(Step(s, RecvPush(j)))
  {
    var s' := Step(s, RecvPush(j));
    var cur := s.recv[j].cur;
    assert RecvOk(s, j);
    if s.free == s.heap[cur].next {
      PushedOk(s, j);
    } else {
      hide ChainOk, RecvsOk, RootOk, FreeOk, PlacesOk;
      LeaverFrame(s, s', j);
    }
  }

  lemma PushedFree(s: State, j: nat)
    requires Inv(s) && Enabled(s, RecvPush(j)) && s.free == s.heap[s.recv[j].cur].next
    ensures FreeOk(Step(s, RecvPush(j)))
  {
    hide PlacesOk, ChainOk, RootOk, RecvsOk;
    var s' := Step(s, RecvPush(j));
    forall d | 0 <= d < |s'.fl| ensures FreeAt(s', d) { if d < |s.fl| { assert FreeAt(s, d); } }
  }

  lemma PushedOk(s: State, j: nat)
    requires Inv(s) && Enabled(s, RecvPush(j)) && s.free == s.heap[s.recv[j].cur].next
    ensures Inv(Step(s, RecvPush(j)))
  {
    var s' := Step(s, RecvPush(j));
    assert RecvOk(s, j) && At(s, s.recv[j].cur, Leaver(j));
    PushPlacesOk(s, j);
    PushedFree(s, j);
    forall i | 0 <= i < s.n - 1 ensures RecvOk(s', i) { assert RecvOk(s, i); }
    hide PlacesOk, FreeOk, RecvsOk, RecvOk;
    forall k | 0 <= k <= |s.hist| && IsLive(s', k) ensures ChainAt(s', k) { assert IsLive(s, k) && ChainAt(s, k); }
  }

  lemma PushPlacesOk(s: State, j: nat)
    requires Inv(s) && Enabled(s, RecvPush(j)) && s.free == s.heap[s.recv[j].cur].next
    ensures PlacesOk(Step(s, RecvPush(j)))
  {
    var s' := Step(s, RecvPush(j));
    var cur, f := s.recv[j].cur, |s.fl|;
    assert At(s, cur, Leaver(j));
    forall h, p | At(s', h, p) ensures h in s'.place && s'.place[h] == p {
      if p != Free(f) { assert At(s, h, p); }
    }
    forall h | h in s'.place ensures 0 < h < s'.brk && At(s', h, s'.place[h]) { assert At(s, h, s.place[h]); }
  }

  // ---------- Runs ----------

  /** Every step of every thread keeps the invariant. */
  lemma StepKeeps(s: State, a: Action)
    requires Inv(s) && Enabled(s, a)
    ensures Inv(Step(s, a))
  {
    match a
    case RootEnter(data) => RootEnterOk(s, data);
    case RootHead => HeadOk(s);
    case RootSucc => SuccOk(s);
    case RootSwap => SwapOk(s);
    case RootChunk => ChunkOk(s);
    case RootTail => TailOk(s);
    case RootSplice => SpliceOk(s);
    case RootFill(mem) => FillOk(s, mem);
    case RootPublish => PublishOk(s);
    case RecvEnter(j, buf) => EnterOk(s, j, buf);
    case RecvSee(j) => SeeOk(s, j);
    case RecvCopy(j) => CopyOk(s, j);
    case RecvSetKey(j) => SetKeyOk(s, j);
    case RecvCount(j) => CountOk(s, j);
    case RecvLast(j) => LastStepOk(s, j);
    case RecvReread(j) => RereadOk(s, j);
    case RecvPush(j) => PushOk(s, j);
  }

  lemma {:induction false} RunKeeps(n: nat, run: seq<State>, t: nat)
    requires IsRun(n, run) && t < |run|
    ensures Inv(run[t])
  {
    if t == 0 {
      InitOk(n);
    } else {
      RunKeeps(n, run, t - 1);
      assert Next(run[t - 1], run[t - 1 + 1]);
      var a :| Enabled(run[t - 1], a) && run[t] == Step(run[t - 1], a);
      StepKeeps(run[t - 1], a);
    }
  }
}
