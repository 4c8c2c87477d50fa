/**
 * The message buffer of one thread (`mbuffer.c`): two arenas of memory, each
 * tiled by blocks that start with a header and are linked both ways.
 *
 * The memory is a map from addresses to the headers written there.  A header
 * that was merged into its neighbour stays in the map, as it stays in memory;
 * the block lists say which headers count.
 */
module MBuffer {

  const NULL := 0
  const HEADER := 32          // BUF_HEADER_SIZE
  const MIN_FRAGMENT := HEADER + 64
  const MEGABYTE := 0x100000

  datatype Header = Header(pre: int, next: int, free: bool, size: nat)

  /** A block of an arena: where its header is, its size with the header, and whether it is free. */
  datatype Block = Block(addr: int, size: nat, free: bool) {
    /** The address handed to the caller of `mb_alloc` */
    function Payload(): int { addr + HEADER }
    function End(): int { addr + size }
  }

  /** `AdjustSize`: the mask clears the low five bits; the sum of an `int` and 31 fits in 32 bits. */
  function AdjustSize(x: nat): (r: nat)
    ensures x <= r < x + 32 && r % 32 == 0
  { (x + 31) - (x + 31) % 32 }

  /** The size that a block needs for `isize` bytes of payload */
  function Need(isize: nat): (r: nat)
    ensures isize + HEADER <= r < isize + HEADER + 32
  { AdjustSize(isize) + HEADER }

  // ---------- Block lists ----------

  /** A block starts at a multiple of 32 bytes from the start of its arena. */
  predicate Aligned(b: Block, base: int) { (b.addr - base) % 32 == 0 }

  /** The room that an arena takes: its first header is written even where the memory is too small for it. */
  function Extent(total: nat): nat { if total < HEADER then HEADER else total }

  /**
   * The blocks fill the arena from `base` to `base + total` without gap or
   * overlap.  Only an attached memory too small for a header has a block that
   * is smaller than one.
   */
  predicate Tiles(bs: seq<Block>, base: int, total: nat) {
    && bs != [] && bs[0].addr == base && bs[|bs| - 1].End() == base + total
    && (forall i :: 0 <= i < |bs| ==> Aligned(bs[i], base) && (bs[i].size >= HEADER || |bs| == 1))
    && (forall i :: 0 <= i < |bs| - 1 ==> bs[i + 1].addr == bs[i].End())
  }

  /** No two neighbours are both free. */
  predicate Coalesced(bs: seq<Block>) { forall i :: 0 <= i < |bs| - 1 ==> !(bs[i].free && bs[i + 1].free) }

  predicate Fits(b: Block, need: nat) { b.free && b.size >= need }

  /** The first block that fits, or the length of the list */
  function FirstFit(bs: seq<Block>, need: nat): (i: nat)
    ensures i <= |bs| && (forall j :: 0 <= j < i ==> !Fits(bs[j], need)) && (i < |bs| ==> Fits(bs[i], need))
  {
    if bs == [] || Fits(bs[0], need) then 0 else 1 + FirstFit(bs[1..], need)
  }

  /** Block `i` is given away, cut to `need` if the rest is worth keeping. */
  function AllocAt(bs: seq<Block>, i: nat, need: nat): seq<Block>
    requires i < |bs| && Fits(bs[i], need)
  {
    var b := bs[i];
    bs[..i]
    + (if b.size >= need + MIN_FRAGMENT
       then [Block(b.addr, need, false), Block(b.addr + need, b.size - need, true)]
       else [Block(b.addr, b.size, false)])
    + bs[i + 1..]
  }

  predicate FreeBefore(bs: seq<Block>, i: nat) requires i < |bs| { i > 0 && bs[i - 1].free }
  predicate FreeAfter(bs: seq<Block>, i: nat) requires i < |bs| { i < |bs| - 1 && bs[i + 1].free }

  /** The blocks from `Low` to `High` become one when block `i` is freed. */
  function Low(bs: seq<Block>, i: nat): nat requires i < |bs| { if FreeBefore(bs, i) then i - 1 else i }
  function High(bs: seq<Block>, i: nat): nat requires i < |bs| { if FreeAfter(bs, i) then i + 2 else i + 1 }

  /** Block `i` comes back and melts into its free neighbours. */
  function FreeAt(bs: seq<Block>, i: nat): seq<Block>
    requires i < |bs|
  {
    var lo, hi := Low(bs, i), High(bs, i);
    bs[..lo] + [Block(bs[lo].addr, SizeOf(bs, lo, hi), true)] + bs[hi..]
  }

  /** The size of the blocks from `lo` to `hi` */
  function SizeOf(bs: seq<Block>, lo: nat, hi: nat): nat
    requires lo <= hi <= |bs|
    decreases hi - lo
  { if lo == hi then 0 else bs[lo].size + SizeOf(bs, lo + 1, hi) }

  // ---------- What the two operations keep ----------

  function Splice(bs: seq<Block>, lo: nat, mid: seq<Block>, hi: nat): seq<Block>
    requires lo <= hi <= |bs|
  { bs[..lo] + mid + bs[hi..] }

  lemma SpliceAt(bs: seq<Block>, lo: nat, mid: seq<Block>, hi: nat, k: nat)
    requires lo <= hi <= |bs| && k < |Splice(bs, lo, mid, hi)|
    ensures Splice(bs, lo, mid, hi)[k]
      == if k < lo then bs[k] else if k < lo + |mid| then mid[k - lo] else bs[k - lo - |mid| + hi]
  { }

  /** Blocks that fill the room of others keep the tiling. */
  lemma SpliceTiles(bs: seq<Block>, lo: nat, mid: seq<Block>, hi: nat, base: int, total: nat)
    requires Tiles(bs, base, total) && lo < hi <= |bs| && mid != []
    requires mid[0].addr == bs[lo].addr && mid[|mid| - 1].End() == bs[hi - 1].End()
    requires forall k :: 0 <= k < |mid| ==> Aligned(mid[k], base) && (mid[k].size >= HEADER || (|mid| == 1 && lo == 0 && hi == |bs|))
    requires forall k :: 0 <= k < |mid| - 1 ==> mid[k + 1].addr == mid[k].End()
    ensures Tiles(Splice(bs, lo, mid, hi), base, total)
  {
    hide Aligned;
    var cs := Splice(bs, lo, mid, hi);
    SpliceAt(bs, lo, mid, hi, 0);
    SpliceAt(bs, lo, mid, hi, |cs| - 1);
    forall k | 0 <= k < |cs| ensures Aligned(cs[k], base) && (cs[k].size >= HEADER || |cs| == 1) { SpliceAt(bs, lo, mid, hi, k); }
    forall k | 0 <= k < |cs| - 1 ensures cs[k + 1].addr == cs[k].End() {
      SpliceAt(bs, lo, mid, hi, k);
      SpliceAt(bs, lo, mid, hi, k + 1);
    }
  }

  lemma SpliceCoalesced(bs: seq<Block>, lo: nat, mid: seq<Block>, hi: nat)
    requires Coalesced(bs) && lo < hi <= |bs| && mid != [] && Coalesced(mid)
    requires lo > 0 ==> !(bs[lo - 1].free && mid[0].free)
    requires hi < |bs| ==> !(mid[|mid| - 1].free && bs[hi].free)
    ensures Coalesced(Splice(bs, lo, mid, hi))
  {
    var cs := Splice(bs, lo, mid, hi);
    forall k | 0 <= k < |cs| - 1 ensures !(cs[k].free && cs[k + 1].free) {
      SpliceAt(bs, lo, mid, hi, k);
      SpliceAt(bs, lo, mid, hi, k + 1);
    }
  }

  lemma AllocKeeps(bs: seq<Block>, i: nat, isize: nat, base: int, total: nat)
    requires Tiles(bs, base, total) && Coalesced(bs) && i < |bs| && Fits(bs[i], Need(isize))
    ensures Tiles(AllocAt(bs, i, Need(isize)), base, total) && Coalesced(AllocAt(bs, i, Need(isize)))
  {
    var need := Need(isize);
    var b := bs[i];
    var mid := if b.size >= need + MIN_FRAGMENT
               then [Block(b.addr, need, false), Block(b.addr + need, b.size - need, true)]
               else [Block(b.addr, b.size, false)];
    assert Aligned(b, base) && Aligned(Block(b.addr + need, b.size - need, true), base) by {
      assert b.addr + need - base == (b.addr - base) + need;
    }
    hide Aligned;
    SpliceTiles(bs, i, mid, i + 1, base, total);
    SpliceCoalesced(bs, i, mid, i + 1);
    assert AllocAt(bs, i, need) == Splice(bs, i, mid, i + 1);
  }

  lemma SizeOfNeighbours(bs: seq<Block>, i: nat)
    requires i < |bs|
    ensures SizeOf(bs, i, i + 1) == bs[i].size
    ensures i > 0 ==> SizeOf(bs, i - 1, i + 1) == bs[i - 1].size + bs[i].size
    ensures i < |bs| - 1 ==> SizeOf(bs, i, i + 2) == bs[i].size + bs[i + 1].size
    ensures 0 < i < |bs| - 1 ==> SizeOf(bs, i - 1, i + 2) == bs[i - 1].size + bs[i].size + bs[i + 1].size
  {
    assert SizeOf(bs, i + 1, i + 1) == 0;
    if i < |bs| - 1 { assert SizeOf(bs, i + 2, i + 2) == 0 && SizeOf(bs, i + 1, i + 2) == bs[i + 1].size; }
  }

  /** The merged block ends where the last of its parts ended. */
  lemma FreedFits(bs: seq<Block>, i: nat, base: int, total: nat)
    requires Tiles(bs, base, total) && i < |bs|
    ensures var lo, hi := Low(bs, i), High(bs, i);
            var b := Block(bs[lo].addr, SizeOf(bs, lo, hi), true);
            b.End() == bs[hi - 1].End() && Aligned(b, base) && (b.size >= HEADER || (lo == 0 && hi == |bs|))
  {
    SizeOfNeighbours(bs, i);
    assert Aligned(bs[Low(bs, i)], base) ==> Aligned(Block(bs[Low(bs, i)].addr, SizeOf(bs, Low(bs, i), High(bs, i)), true), base);
    hide SizeOf, Aligned;
    assert forall k :: 0 <= k < |bs| - 1 ==> bs[k + 1].addr == bs[k].End();
  }

  lemma FreeKeeps(bs: seq<Block>, i: nat, base: int, total: nat)
    requires Tiles(bs, base, total) && Coalesced(bs) && i < |bs| && !bs[i].free
    ensures Tiles(FreeAt(bs, i), base, total) && Coalesced(FreeAt(bs, i))
  {
    var lo, hi := Low(bs, i), High(bs, i);
    var mid := [Block(bs[lo].addr, SizeOf(bs, lo, hi), true)];
    FreedFits(bs, i, base, total);
    hide Aligned, SizeOf, Tiles;
    SpliceTiles(bs, lo, mid, hi, base, total);
    SpliceCoalesced(bs, lo, mid, hi);
    assert FreeAt(bs, i) == Splice(bs, lo, mid, hi);
  }

  /** Freeing a block right after it was given away restores the block list. */
  lemma FreeUndoesAlloc(bs: seq<Block>, i: nat, need: nat)
    requires Coalesced(bs) && i < |bs| && Fits(bs[i], need)
    ensures FreeAt(AllocAt(bs, i, need), i) == bs
  {
    var cs := AllocAt(bs, i, need);
    assert i > 0 ==> cs[i - 1] == bs[i - 1];
    if bs[i].size >= need + MIN_FRAGMENT {
      assert cs[i] == Block(bs[i].addr, need, false) && cs[i + 1] == Block(bs[i].addr + need, bs[i].size - need, true);
      assert cs[i + 2..] == bs[i + 1..] && cs[..i] == bs[..i];
      assert SizeOf(cs, i + 2, i + 2) == 0 && SizeOf(cs, i + 1, i + 2) == bs[i].size - need;
    } else {
      assert cs[i] == Block(bs[i].addr, bs[i].size, false);
      assert cs[i + 1..] == bs[i + 1..] && cs[..i] == bs[..i];
      assert SizeOf(cs, i + 1, i + 1) == 0;
    }
  }

  /** When nothing of an arena is in use, it is one free block again, whatever happened before. */
  lemma AllFreeIsOne(bs: seq<Block>, base: int, total: nat)
    requires Tiles(bs, base, total) && Coalesced(bs)
    ensures (forall i :: 0 <= i < |bs| ==> bs[i].free) <==> bs == [Block(base, total, true)]
  {
    if |bs| > 1 { assert !(bs[0].free && bs[0 + 1].free); }
  }

  /** A block lies in its arena, and of two blocks the earlier one ends before the later one starts. */
  lemma {:induction false} BlocksApart(bs: seq<Block>, base: int, total: nat, i: nat, j: nat)
    requires Tiles(bs, base, total) && i <= j < |bs|
    ensures base <= bs[i].addr && bs[j].End() <= base + total
    ensures bs[j].addr + Extent(bs[j].size) <= base + Extent(total)
    ensures i < j ==> bs[i].End() <= bs[j].addr
  {
    Ascending(bs, base, total, 0, i);
    Ascending(bs, base, total, i, j);
    Ascending(bs, base, total, j, |bs| - 1);
  }

  lemma {:induction false} Ascending(bs: seq<Block>, base: int, total: nat, i: nat, j: nat)
    requires Tiles(bs, base, total) && i <= j < |bs|
    ensures i == j || bs[i].End() <= bs[j].addr
    decreases j - i
  {
    if i < j { Ascending(bs, base, total, i + 1, j); }
  }

  // ---------- Block lists in memory ----------

  /** The headers of the list are in memory and linked as the list says. */
  ghost predicate Linked(mem: map<int, Header>, bs: seq<Block>) {
    forall i :: 0 <= i < |bs| ==> LinkedAt(mem, bs, i)
  }

  predicate LinkedAt(mem: map<int, Header>, bs: seq<Block>, i: nat)
    requires i < |bs|
  {
    && bs[i].addr in mem && bs[i].addr != NULL
    && mem[bs[i].addr] == Header(if i == 0 then NULL else bs[i - 1].addr,
                                 if i == |bs| - 1 then NULL else bs[i + 1].addr,
                                 bs[i].free, bs[i].size)
  }

  /** Two pieces of memory do not overlap. */
  predicate Disjoint(base: int, total: nat, base': int, total': nat) {
    base + total <= base' || base' + total' <= base
  }

  /** Memory `mem'` differs from `mem` at most between `base` and `base + total`. */
  ghost predicate WritesWithin(mem: map<int, Header>, mem': map<int, Header>, base: int, total: nat) {
    forall a :: a < base || base + total <= a ==> (a in mem' <==> a in mem) && (a in mem ==> mem'[a] == mem[a])
  }

  lemma LinkedElsewhere(mem: map<int, Header>, mem': map<int, Header>, base: int, total: nat, bs: seq<Block>, base': int, total': nat)
    requires WritesWithin(mem, mem', base, Extent(total)) && Tiles(bs, base', total') && Disjoint(base, Extent(total), base', Extent(total'))
    requires Linked(mem, bs)
    ensures Linked(mem', bs)
  {
    forall k | 0 <= k < |bs| ensures LinkedAt(mem', bs, k) {
      BlocksApart(bs, base', total', k, k);
      assert LinkedAt(mem, bs, k);
      var a := bs[k].addr;
      assert a in mem' <==> a in mem;
    }
  }

  /** What memory must say about a stretch and its surroundings so that the changed list is linked again */
  ghost predicate Relinked(mem: map<int, Header>, mem': map<int, Header>, bs: seq<Block>, lo: nat, mid: seq<Block>, hi: nat)
    requires lo < hi <= |bs| && mid != [] && Linked(mem, bs)
  {
    && (forall k :: 0 <= k < |mid| ==> NewAt(mem', bs, lo, mid, hi, k))
    && (forall k :: (0 <= k < lo || hi <= k < |bs|) ==> RelinkedAt(mem, mem', bs, lo, mid, hi, k))
  }

  predicate NewAt(mem': map<int, Header>, bs: seq<Block>, lo: nat, mid: seq<Block>, hi: nat, k: nat)
    requires lo < hi <= |bs| && k < |mid|
  {
    && mid[k].addr in mem' && mid[k].addr != NULL
    && mem'[mid[k].addr] == Header(if k > 0 then mid[k - 1].addr else if lo > 0 then bs[lo - 1].addr else NULL,
                                   if k < |mid| - 1 then mid[k + 1].addr else if hi < |bs| then bs[hi].addr else NULL,
                                   mid[k].free, mid[k].size)
  }

  ghost predicate RelinkedAt(mem: map<int, Header>, mem': map<int, Header>, bs: seq<Block>, lo: nat, mid: seq<Block>, hi: nat, k: nat)
    requires lo < hi <= |bs| && mid != [] && Linked(mem, bs) && (k < lo || hi <= k < |bs|)
  {
    assert LinkedAt(mem, bs, k);
    var a := bs[k].addr;
    && a in mem'
    && mem'[a] == (if k == lo - 1 then mem[a].(next := mid[0].addr)
                   else if k == hi then mem[a].(pre := mid[|mid| - 1].addr)
                   else mem[a])
  }

  lemma SpliceLinked(mem: map<int, Header>, mem': map<int, Header>, bs: seq<Block>, lo: nat, mid: seq<Block>, hi: nat)
    requires lo < hi <= |bs| && mid != [] && Linked(mem, bs) && Relinked(mem, mem', bs, lo, mid, hi)
    ensures Linked(mem', Splice(bs, lo, mid, hi))
  {
    var cs := Splice(bs, lo, mid, hi);
    forall k | 0 <= k < |cs| ensures LinkedAt(mem', cs, k) { SpliceLinkedAt(mem, mem', bs, lo, mid, hi, k); }
  }

  lemma SpliceLinkedAt(mem: map<int, Header>, mem': map<int, Header>, bs: seq<Block>, lo: nat, mid: seq<Block>, hi: nat, k: nat)
    requires lo < hi <= |bs| && mid != [] && Linked(mem, bs) && Relinked(mem, mem', bs, lo, mid, hi)
    requires k < |Splice(bs, lo, mid, hi)|
    ensures LinkedAt(mem', Splice(bs, lo, mid, hi), k)
  {
    var cs := Splice(bs, lo, mid, hi);
    SpliceAt(bs, lo, mid, hi, k);
    if k > 0 { SpliceAt(bs, lo, mid, hi, k - 1); }
    if k < |cs| - 1 { SpliceAt(bs, lo, mid, hi, k + 1); }
    if k < lo {
      assert RelinkedAt(mem, mem', bs, lo, mid, hi, k) && LinkedAt(mem, bs, k);
    } else if k >= lo + |mid| {
      var o := k - lo - |mid| + hi;
      assert RelinkedAt(mem, mem', bs, lo, mid, hi, o) && LinkedAt(mem, bs, o);
    } else {
      assert NewAt(mem', bs, lo, mid, hi, k - lo);
    }
  }

  // ---------- What the writes of the two operations do ----------

  /** No header of another block lies in block `i`, and no two blocks start at the same address. */
  lemma Outside(bs: seq<Block>, base: int, total: nat, i: nat, k: nat)
    requires Tiles(bs, base, total) && i < |bs| && k < |bs| && k != i
    ensures bs[k].addr < bs[i].addr || bs[i].End() <= bs[k].addr
  {
    BlocksApart(bs, base, total, if i < k then i else k, if i < k then k else i);
  }

  /** The writes of `mb_alloc` into block `i` */
  function CarveMem(mem: map<int, Header>, tmp: int, need: nat): map<int, Header>
    requires tmp in mem
  {
    var h := mem[tmp];
    if h.size >= need + MIN_FRAGMENT then
      var m := mem[tmp + need := Header(tmp, h.next, true, h.size - need)];
      var n := if h.next != NULL && h.next in m then m[h.next := m[h.next].(pre := tmp + need)] else m;
      n[tmp := Header(h.pre, tmp + need, false, need)]
    else mem[tmp := h.(free := false)]
  }

  /** What `mb_alloc` puts in the place of block `b` */
  function Carved(b: Block, need: nat): seq<Block> requires b.size >= need {
    if b.size >= need + MIN_FRAGMENT
    then [Block(b.addr, need, false), Block(b.addr + need, b.size - need, true)]
    else [Block(b.addr, b.size, false)]
  }

  lemma CarveRelinks(mem: map<int, Header>, bs: seq<Block>, i: nat, need: nat, base: int, total: nat, k: nat)
    requires Tiles(bs, base, total) && Linked(mem, bs) && base > 0 && need >= HEADER && i < |bs| && Fits(bs[i], need)
    requires LinkedAt(mem, bs, i) && k < |bs| && k != i
    ensures RelinkedAt(mem, CarveMem(mem, bs[i].addr, need), bs, i, Carved(bs[i], need), i + 1, k)
  {
    Outside(bs, base, total, i, k);
    if i < |bs| - 1 {
      if k != i + 1 { Outside(bs, base, total, i + 1, k); }
      Outside(bs, base, total, i, i + 1);
      assert LinkedAt(mem, bs, i + 1);
    }
    assert LinkedAt(mem, bs, k);
    hide Tiles, Linked;
  }

  lemma CarveNew(mem: map<int, Header>, bs: seq<Block>, i: nat, need: nat, base: int, total: nat, k: nat)
    requires Tiles(bs, base, total) && Linked(mem, bs) && base > 0 && need >= HEADER && i < |bs| && Fits(bs[i], need)
    requires LinkedAt(mem, bs, i) && k < |Carved(bs[i], need)|
    ensures NewAt(CarveMem(mem, bs[i].addr, need), bs, i, Carved(bs[i], need), i + 1, k)
    ensures WritesWithin(mem, CarveMem(mem, bs[i].addr, need), base, Extent(total))
  {
    BlocksApart(bs, base, total, i, i);
    if i < |bs| - 1 {
      BlocksApart(bs, base, total, i + 1, i + 1);
      Outside(bs, base, total, i, i + 1);
      assert LinkedAt(mem, bs, i + 1);
    }
    hide Tiles, Linked;
  }

  lemma CarveLinks(mem: map<int, Header>, bs: seq<Block>, i: nat, need: nat, base: int, total: nat)
    requires Tiles(bs, base, total) && Linked(mem, bs) && base > 0 && need >= HEADER && i < |bs| && Fits(bs[i], need)
    requires LinkedAt(mem, bs, i)
    ensures Linked(CarveMem(mem, bs[i].addr, need), AllocAt(bs, i, need))
    ensures WritesWithin(mem, CarveMem(mem, bs[i].addr, need), base, Extent(total))
  {
    var mem', mid, hi := CarveMem(mem, bs[i].addr, need), Carved(bs[i], need), i + 1;
    assert AllocAt(bs, i, need) == Splice(bs, i, mid, hi);
    CarveNew(mem, bs, i, need, base, total, 0);
    hide Tiles, Linked, CarveMem, NewAt, RelinkedAt, WritesWithin;
    forall k | 0 <= k < |mid| ensures NewAt(mem', bs, i, mid, hi, k) { CarveNew(mem, bs, i, need, base, total, k); }
    forall k | 0 <= k < i || hi <= k < |bs| ensures RelinkedAt(mem, mem', bs, i, mid, hi, k) {
      CarveRelinks(mem, bs, i, need, base, total, k);
    }
    SpliceLinked(mem, mem', bs, i, mid, hi);
  }

  /** The headers that `mb_free` follows are there. */
  predicate FreeReady(mem: map<int, Header>, bh: int) {
    && bh in mem && mem[bh].next != bh && mem[bh].pre != bh
    && (mem[bh].pre != NULL ==> mem[bh].pre in mem && mem[bh].pre != mem[bh].next)
    && (mem[bh].next != NULL ==>
          && mem[bh].next in mem
          && (mem[mem[bh].next].next != NULL ==>
                mem[mem[bh].next].next in mem && mem[mem[bh].next].next != mem[bh].next && mem[mem[bh].next].next != bh))
  }

  /** The writes of `mb_free` for the block at `bh` */
  function FreeMem(mem: map<int, Header>, bh: int): map<int, Header>
    requires FreeReady(mem, bh)
  {
    var h := mem[bh];
    var nextFree := h.next != NULL && mem[h.next].free;
    var preFree := h.pre != NULL && mem[h.pre].free;
    var last := if nextFree then mem[h.next].next else h.next;
    var size := h.size + (if nextFree then mem[h.next].size else 0);
    var m := if preFree then mem[h.pre := mem[h.pre].(size := mem[h.pre].size + size, next := last)]
             else mem[bh := Header(h.pre, last, true, size)];
    if last == NULL || !(nextFree || preFree) then m
    else m[last := m[last].(pre := if preFree then h.pre else bh)]
  }

  lemma FreeLinks(mem: map<int, Header>, bs: seq<Block>, i: nat, base: int, total: nat)
    requires Tiles(bs, base, total) && Linked(mem, bs) && base > 0 && i < |bs|
    ensures LinkedAt(mem, bs, i)
    ensures i > 0 ==> LinkedAt(mem, bs, i - 1)
    ensures i < |bs| - 1 ==> LinkedAt(mem, bs, i + 1)
    ensures i < |bs| - 2 ==> LinkedAt(mem, bs, i + 2)
    ensures FreeReady(mem, bs[i].addr)
  {
    assert LinkedAt(mem, bs, i);
    if i > 0 { assert LinkedAt(mem, bs, i - 1); Outside(bs, base, total, i, i - 1); }
    if i < |bs| - 1 { assert LinkedAt(mem, bs, i + 1); Outside(bs, base, total, i, i + 1); }
    if 0 < i < |bs| - 1 { Outside(bs, base, total, i - 1, i + 1); }
    if i < |bs| - 2 {
      assert LinkedAt(mem, bs, i + 2);
      Outside(bs, base, total, i, i + 2);
      Outside(bs, base, total, i + 1, i + 2);
    }
  }

  /** Memory `mem'` is `mem` with the blocks from `lo` to `hi` merged into the one at `lo`. */
  ghost predicate Merged(mem: map<int, Header>, mem': map<int, Header>, bs: seq<Block>, lo: nat, hi: nat)
    requires lo < hi <= |bs| && Linked(mem, bs)
  {
    assert LinkedAt(mem, bs, lo) && (hi < |bs| ==> LinkedAt(mem, bs, hi));
    && mem'.Keys == mem.Keys
    && mem'[bs[lo].addr] == Header(mem[bs[lo].addr].pre, if hi < |bs| then bs[hi].addr else NULL, true, SizeOf(bs, lo, hi))
    && (hi < |bs| ==> mem'[bs[hi].addr] == mem[bs[hi].addr].(pre := bs[lo].addr))
    && (forall a :: a in mem && a != bs[lo].addr && (hi < |bs| ==> a != bs[hi].addr) ==> mem'[a] == mem[a])
  }

  lemma MergesBoth(mem: map<int, Header>, bs: seq<Block>, i: nat)
    requires Linked(mem, bs) && 0 < i < |bs| - 1 && bs[i - 1].free && bs[i + 1].free
    requires LinkedAt(mem, bs, i) && LinkedAt(mem, bs, i - 1) && LinkedAt(mem, bs, i + 1) && (i + 2 < |bs| ==> LinkedAt(mem, bs, i + 2))
    requires FreeReady(mem, bs[i].addr) && (i + 2 < |bs| ==> bs[i + 2].addr != bs[i - 1].addr)
    requires SizeOf(bs, i - 1, i + 2) == bs[i - 1].size + bs[i].size + bs[i + 1].size
    ensures Merged(mem, FreeMem(mem, bs[i].addr), bs, i - 1, i + 2)
  {
    hide Linked, SizeOf;
  }

  lemma MergesBefore(mem: map<int, Header>, bs: seq<Block>, i: nat)
    requires Linked(mem, bs) && 0 < i < |bs| && bs[i - 1].free && !FreeAfter(bs, i)
    requires LinkedAt(mem, bs, i) && LinkedAt(mem, bs, i - 1) && (i + 1 < |bs| ==> LinkedAt(mem, bs, i + 1))
    requires FreeReady(mem, bs[i].addr) && (i + 1 < |bs| ==> bs[i + 1].addr != bs[i - 1].addr)
    requires SizeOf(bs, i - 1, i + 1) == bs[i - 1].size + bs[i].size
    ensures Merged(mem, FreeMem(mem, bs[i].addr), bs, i - 1, i + 1)
  {
    hide Linked, SizeOf;
  }

  lemma MergesAfter(mem: map<int, Header>, bs: seq<Block>, i: nat)
    requires Linked(mem, bs) && i < |bs| - 1 && !FreeBefore(bs, i) && bs[i + 1].free
    requires LinkedAt(mem, bs, i) && (i > 0 ==> LinkedAt(mem, bs, i - 1)) && LinkedAt(mem, bs, i + 1) && (i + 2 < |bs| ==> LinkedAt(mem, bs, i + 2))
    requires FreeReady(mem, bs[i].addr) && (i + 2 < |bs| ==> bs[i + 2].addr != bs[i].addr)
    requires SizeOf(bs, i, i + 2) == bs[i].size + bs[i + 1].size
    ensures Merged(mem, FreeMem(mem, bs[i].addr), bs, i, i + 2)
  {
    hide Linked, SizeOf;
  }

  lemma MergesNone(mem: map<int, Header>, bs: seq<Block>, i: nat)
    requires Linked(mem, bs) && i < |bs| && !FreeBefore(bs, i) && !FreeAfter(bs, i)
    requires LinkedAt(mem, bs, i) && (i > 0 ==> LinkedAt(mem, bs, i - 1)) && (i + 1 < |bs| ==> LinkedAt(mem, bs, i + 1))
    requires FreeReady(mem, bs[i].addr) && (i + 1 < |bs| ==> bs[i + 1].addr != bs[i].addr)
    requires SizeOf(bs, i, i + 1) == bs[i].size
    ensures Merged(mem, FreeMem(mem, bs[i].addr), bs, i, i + 1)
  {
    hide Linked, SizeOf;
  }

  lemma FreeMerges(mem: map<int, Header>, bs: seq<Block>, i: nat, base: int, total: nat)
    requires Tiles(bs, base, total) && Linked(mem, bs) && base > 0 && i < |bs| && !bs[i].free
    ensures FreeReady(mem, bs[i].addr) && Merged(mem, FreeMem(mem, bs[i].addr), bs, Low(bs, i), High(bs, i))
  {
    FreeLinks(mem, bs, i, base, total);
    SizeOfNeighbours(bs, i);
    if High(bs, i) < |bs| { Outside(bs, base, total, Low(bs, i), High(bs, i)); }
    hide Tiles, SizeOf, Linked, LinkedAt, Merged, FreeReady, FreeMem;
    if FreeBefore(bs, i) {
      if FreeAfter(bs, i) { MergesBoth(mem, bs, i); } else { MergesBefore(mem, bs, i); }
    } else {
      if FreeAfter(bs, i) { MergesAfter(mem, bs, i); } else { MergesNone(mem, bs, i); }
    }
  }

  lemma MergedLinks(mem: map<int, Header>, mem': map<int, Header>, bs: seq<Block>, lo: nat, hi: nat, base: int, total: nat)
    requires Tiles(bs, base, total) && Linked(mem, bs) && base > 0 && lo < hi <= |bs| && Merged(mem, mem', bs, lo, hi)
    ensures Linked(mem', Splice(bs, lo, [Block(bs[lo].addr, SizeOf(bs, lo, hi), true)], hi))
    ensures WritesWithin(mem, mem', base, Extent(total))
  {
    var mid := [Block(bs[lo].addr, SizeOf(bs, lo, hi), true)];
    BlocksApart(bs, base, total, lo, lo);
    assert LinkedAt(mem, bs, lo);
    if hi < |bs| {
      BlocksApart(bs, base, total, hi, hi);
      assert LinkedAt(mem, bs, hi);
      Outside(bs, base, total, lo, hi);
    }
    forall k | 0 <= k < lo || hi <= k < |bs| ensures RelinkedAt(mem, mem', bs, lo, mid, hi, k) {
      MergedRelinks(mem, mem', bs, lo, hi, base, total, k);
    }
    assert NewAt(mem', bs, lo, mid, hi, 0);
    SpliceLinked(mem, mem', bs, lo, mid, hi);
  }

  lemma MergedRelinks(mem: map<int, Header>, mem': map<int, Header>, bs: seq<Block>, lo: nat, hi: nat, base: int, total: nat, k: nat)
    requires Tiles(bs, base, total) && Linked(mem, bs) && base > 0 && lo < hi <= |bs| && Merged(mem, mem', bs, lo, hi)
    requires k < lo || hi <= k < |bs|
    ensures RelinkedAt(mem, mem', bs, lo, [Block(bs[lo].addr, SizeOf(bs, lo, hi), true)], hi, k)
  {
    Outside(bs, base, total, lo, k);
    if hi < |bs| && k != hi { Outside(bs, base, total, hi, k); }
    assert LinkedAt(mem, bs, k);
  }

  lemma FreeRelinks(mem: map<int, Header>, bs: seq<Block>, i: nat, base: int, total: nat)
    requires Tiles(bs, base, total) && Linked(mem, bs) && base > 0 && i < |bs| && !bs[i].free
    ensures FreeReady(mem, bs[i].addr) && Linked(FreeMem(mem, bs[i].addr), FreeAt(bs, i))
    ensures FreeReady(mem, bs[i].addr) && WritesWithin(mem, FreeMem(mem, bs[i].addr), base, Extent(total))
  {
    FreeLinks(mem, bs, i, base, total);
    FreeMerges(mem, bs, i, base, total);
    MergedLinks(mem, FreeMem(mem, bs[i].addr), bs, Low(bs, i), High(bs, i), base, total);
    assert FreeAt(bs, i) == Splice(bs, Low(bs, i), [Block(bs[Low(bs, i)].addr, SizeOf(bs, Low(bs, i), High(bs, i)), true)], High(bs, i));
  }

  // ---------- Blocks in use ----------

  function Used(bs: seq<Block>): set<Block> { set b | b in bs && !b.free }

  /** The block that `mb_alloc` gives away */
  function Given(b: Block, need: nat): Block {
    if b.size >= need + MIN_FRAGMENT then Block(b.addr, need, false) else b.(free := false)
  }

  lemma AllocUses(bs: seq<Block>, i: nat, need: nat)
    requires i < |bs| && Fits(bs[i], need)
    ensures Used(AllocAt(bs, i, need)) == Used(bs) + {Given(bs[i], need)}
  {
    var cs := AllocAt(bs, i, need);
    var n := |cs| - |bs|;
    assert 0 <= n <= 1;
    assert forall j :: 0 <= j < i ==> cs[j] == bs[j];
    assert cs[i] == Given(bs[i], need);
    assert forall j :: i < j < |bs| ==> cs[j + n] == bs[j];
    assert n == 1 ==> cs[i + 1].free;
    hide AllocAt, Given, Fits;
    forall b | b in Used(bs) + {cs[i]} ensures b in Used(cs) {
      if b in Used(bs) {
        var j :| 0 <= j < |bs| && bs[j] == b;
        assert cs[if j < i then j else j + n] == b;
      }
    }
    forall b | b in Used(cs) ensures b in Used(bs) + {cs[i]} {
      var j :| 0 <= j < |cs| && cs[j] == b;
      assert j < i ==> bs[j] == b;
      assert j > i + n ==> bs[j - n] == b;
    }
  }

  lemma FreeReturns(bs: seq<Block>, i: nat, base: int, total: nat)
    requires Tiles(bs, base, total) && i < |bs| && !bs[i].free
    ensures Used(FreeAt(bs, i)) == Used(bs) - {bs[i]}
  {
    var lo, hi := Low(bs, i), High(bs, i);
    var mid := [Block(bs[lo].addr, SizeOf(bs, lo, hi), true)];
    var cs := FreeAt(bs, i);
    assert cs == Splice(bs, lo, mid, hi);
    assert forall j :: lo <= j < hi ==> j == i || bs[j].free;
    MergeReturns(bs, lo, mid, hi, i, base, total);
  }

  lemma MergeReturns(bs: seq<Block>, lo: nat, mid: seq<Block>, hi: nat, i: nat, base: int, total: nat)
    requires Tiles(bs, base, total) && lo <= i < hi <= |bs| && |mid| == 1 && mid[0].free
    requires forall j :: lo <= j < hi ==> j == i || bs[j].free
    ensures Used(Splice(bs, lo, mid, hi)) == Used(bs) - {bs[i]}
  {
    var cs := Splice(bs, lo, mid, hi);
    forall b | b in Used(bs) - {bs[i]} ensures b in Used(cs) {
      var j :| 0 <= j < |bs| && bs[j] == b;
      assert !(lo <= j < hi);
      SpliceAt(bs, lo, mid, hi, if j < lo then j else j + 1 - (hi - lo));
    }
    forall b | b in Used(cs) ensures b in Used(bs) - {bs[i]} { UsedBefore(bs, lo, mid, hi, i, base, total, b); }
  }

  lemma UsedBefore(bs: seq<Block>, lo: nat, mid: seq<Block>, hi: nat, i: nat, base: int, total: nat, b: Block)
    requires Tiles(bs, base, total) && lo <= i < hi <= |bs| && |mid| == 1 && mid[0].free
    requires b in Splice(bs, lo, mid, hi) && !b.free
    ensures b in bs && b != bs[i]
  {
    var cs := Splice(bs, lo, mid, hi);
    var j :| 0 <= j < |cs| && cs[j] == b;
    SpliceAt(bs, lo, mid, hi, j);
    var k := if j < lo then j else j - 1 + hi - lo;
    assert bs[k] == b;
    Outside(bs, base, total, i, k);
    hide Tiles;
    assert |bs| > 1;
  }

  // ---------- What a call takes, and what it leaves ----------

  /** The bytes of the free blocks, headers and all */
  function FreeBytes(bs: seq<Block>): nat {
    if bs == [] then 0 else (if bs[0].free then bs[0].size else 0) + FreeBytes(bs[1..])
  }

  lemma {:induction false} FreeBytesOf(bs: seq<Block>, cs: seq<Block>)
    ensures FreeBytes(bs + cs) == FreeBytes(bs) + FreeBytes(cs)
  {
    if bs == [] {
      assert bs + cs == cs;
    } else {
      FreeBytesOf(bs[1..], cs);
      assert (bs + cs)[1..] == bs[1..] + cs;
    }
  }

  lemma FreeBytesSplice(bs: seq<Block>, lo: nat, mid: seq<Block>, hi: nat)
    requires lo <= hi <= |bs|
    ensures FreeBytes(Splice(bs, lo, mid, hi)) + FreeBytes(bs[lo..hi]) == FreeBytes(bs) + FreeBytes(mid)
  {
    FreeBytesOf(bs[..lo] + mid, bs[hi..]);
    FreeBytesOf(bs[..lo], mid);
    FreeBytesOf(bs[..lo] + bs[lo..hi], bs[hi..]);
    FreeBytesOf(bs[..lo], bs[lo..hi]);
    assert bs[..lo] + bs[lo..hi] == bs[..hi];
    assert bs[..hi] + bs[hi..] == bs;
  }

  /** The size of a block for `isize` bytes, written out */
  lemma NeedIs(isize: nat)
    ensures Need(isize) == (isize + 31) / 32 * 32 + 32
  { }

  /**
   * The block that is given away has room for the request, rounded up to 32
   * bytes, and its header.  Where the block found has 96 bytes more, it is no
   * larger, and a free block of exactly the rest lies behind it; so it never
   * has 160 bytes more than was asked for.
   */
  lemma AllocLeaves(bs: seq<Block>, i: nat, isize: nat)
    requires i < |bs| && Fits(bs[i], Need(isize))
    ensures var b, cs, need := bs[i], AllocAt(bs, i, Need(isize)), (isize + 31) / 32 * 32 + 32;
      && |bs| <= |cs| && cs[..i] == bs[..i] && cs[i].addr == b.addr && !cs[i].free
      && isize + 32 <= need <= cs[i].size < isize + 160
      && (if b.size >= need + 96
          then cs[i].size == need && |cs| == |bs| + 1 && cs[i + 1] == Block(b.addr + need, b.size - need, true) && cs[i + 2..] == bs[i + 1..]
          else cs[i].size == b.size && cs[i + 1..] == bs[i + 1..])
  {
    NeedIs(isize);
    hide Need;
  }

  /** A call takes just the bytes of the block that it gives away. */
  lemma AllocTakes(bs: seq<Block>, i: nat, isize: nat)
    requires i < |bs| && Fits(bs[i], Need(isize))
    ensures var cs := AllocAt(bs, i, Need(isize)); i < |cs| && FreeBytes(cs) == FreeBytes(bs) - cs[i].size
  {
    var mid := Carved(bs[i], Need(isize));
    assert AllocAt(bs, i, Need(isize)) == Splice(bs, i, mid, i + 1);
    FreeBytesSplice(bs, i, mid, i + 1);
    assert bs[i..i + 1] == [bs[i]] && FreeBytes([bs[i]]) == bs[i].size;
    if |mid| == 2 { FreeBytesOf([mid[0]], [mid[1]]); assert mid == [mid[0]] + [mid[1]]; }
  }

  /** Of the blocks that melt together, all but block `i` were free. */
  lemma MeltingBytes(bs: seq<Block>, i: nat)
    requires i < |bs| && !bs[i].free
    ensures FreeBytes(bs[Low(bs, i)..High(bs, i)]) + bs[i].size == SizeOf(bs, Low(bs, i), High(bs, i))
  {
    var lo, hi := Low(bs, i), High(bs, i);
    SizeOfNeighbours(bs, i);
    hide SizeOf;
    assert bs[lo..hi] == bs[lo..i] + [bs[i]] + bs[i + 1..hi];
    FreeBytesOf(bs[lo..i] + [bs[i]], bs[i + 1..hi]);
    FreeBytesOf(bs[lo..i], [bs[i]]);
    assert lo < i ==> bs[lo..i] == [bs[lo]];
    assert i + 1 < hi ==> bs[i + 1..hi] == [bs[i + 1]];
  }

  /** Giving a block back brings back exactly its bytes. */
  lemma FreeBrings(bs: seq<Block>, i: nat)
    requires i < |bs| && !bs[i].free
    ensures FreeBytes(FreeAt(bs, i)) == FreeBytes(bs) + bs[i].size
  {
    var lo, hi := Low(bs, i), High(bs, i);
    var b := Block(bs[lo].addr, SizeOf(bs, lo, hi), true);
    MeltingBytes(bs, i);
    hide SizeOf;
    assert FreeAt(bs, i) == Splice(bs, lo, [b], hi);
    FreeBytesSplice(bs, lo, [b], hi);
    assert FreeBytes([b]) == b.size;
  }

  /** The block lists of the two arenas */
  datatype Lists = Lists(sys: seq<Block>, usr: seq<Block>)

  /** A block of one of the arenas fits. */
  predicate Serves(l: Lists, isize: nat) {
    FirstFit(l.sys, Need(isize)) < |l.sys| || FirstFit(l.usr, Need(isize)) < |l.usr|
  }

  /** That is, some free block is large enough. */
  lemma ServesIff(l: Lists, isize: nat)
    ensures Serves(l, isize) <==> exists b :: b in l.sys + l.usr && b.free && b.size >= (isize + 31) / 32 * 32 + 32
  {
    NeedIs(isize);
    hide Need;
    if b :| b in l.sys + l.usr && b.free && b.size >= (isize + 31) / 32 * 32 + 32 {
      assert Fits(b, Need(isize));
    }
    if FirstFit(l.sys, Need(isize)) < |l.sys| { assert l.sys[FirstFit(l.sys, Need(isize))] in l.sys + l.usr; }
    if FirstFit(l.usr, Need(isize)) < |l.usr| { assert l.usr[FirstFit(l.usr, Need(isize))] in l.sys + l.usr; }
  }

  /** The arenas after a call that succeeds */
  function After(l: Lists, isize: nat): Lists
    requires Serves(l, isize)
  {
    var need := Need(isize);
    if FirstFit(l.sys, need) < |l.sys| then l.(sys := AllocAt(l.sys, FirstFit(l.sys, need), need))
    else l.(usr := AllocAt(l.usr, FirstFit(l.usr, need), need))
  }

  /** One call after the other, each of them succeeds. */
  predicate ServesAll(l: Lists, requests: seq<nat>)
    decreases |requests|
  {
    requests != [] ==> Serves(l, requests[0]) && ServesAll(After(l, requests[0]), requests[1..])
  }

  function Total(requests: seq<nat>): nat { if requests == [] then 0 else requests[0] + Total(requests[1..]) }

  /** A free block that is `room` bytes larger than a request needs leaves a free block of `room` bytes, whichever block was found. */
  lemma RoomLeft(bs: seq<Block>, b: Block, isize: nat, room: nat) returns (c: Block)
    requires b in bs && b.free && b.size >= isize + 64 + room && room >= 96
    ensures var i := FirstFit(bs, Need(isize)); i < |bs| && c in AllocAt(bs, i, Need(isize)) && c.free && c.size >= room
  {
    var need := Need(isize);
    var k :| 0 <= k < |bs| && bs[k] == b;
    var i := FirstFit(bs, need);
    assert Fits(bs[k], need);
    var cs := AllocAt(bs, i, need);
    if k < i {
      assert false;
    } else if k == i {
      c := cs[i + 1];
    } else {
      c := b;
      assert cs[|cs| - |bs| + k] == b;
    }
  }

  /**
   * Calls one after the other: a free block with room for all the requests,
   * 64 bytes for each of them and 96 bytes more serves them all.
   */
  lemma {:induction false} RoomForAll(l: Lists, b: Block, requests: seq<nat>)
    requires b in l.sys + l.usr && b.free && b.size >= Total(requests) + 64 * |requests| + 96
    ensures ServesAll(l, requests)
    decreases |requests|
  {
    if requests != [] {
      var isize, rest := requests[0], requests[1..];
      var room := Total(rest) + 64 * |rest| + 96;
      var c := b;
      if b in l.sys {
        c := RoomLeft(l.sys, b, isize, room);
      } else {
        c := RoomLeft(l.usr, b, isize, room);
        if FirstFit(l.sys, Need(isize)) < |l.sys| { c := b; }
      }
      RoomForAll(After(l, isize), c, rest);
    }
  }

  // ---------- The buffer ----------

  /** The place of the block that starts at `addr`, or the length of the list */
  function IndexOf(bs: seq<Block>, addr: int): (i: nat)
    ensures i <= |bs| && (i < |bs| ==> bs[i].addr == addr) && (forall j :: 0 <= j < i ==> bs[j].addr != addr)
  {
    if bs == [] || bs[0].addr == addr then 0 else 1 + IndexOf(bs[1..], addr)
  }

  /**
   * The payloads in use: every used block holds the payload somebody asked
   * for, and nothing else is on record.
   */
  ghost predicate Wanted(sys: seq<Block>, usr: seq<Block>, want: map<int, nat>) {
    && (forall b :: b in Used(sys) + Used(usr) ==> b.Payload() in want && want[b.Payload()] + HEADER <= b.size)
    && (forall p :: p in want ==> exists b :: b in Used(sys) + Used(usr) && b.Payload() == p)
  }

  /** One arena: not there (`base` is null), or tiled, coalesced and linked in memory */
  ghost predicate ArenaOk(mem: map<int, Header>, bs: seq<Block>, base: int, total: nat) {
    if base == NULL then bs == [] else base > 0 && Tiles(bs, base, total) && Coalesced(bs) && Linked(mem, bs)
  }

  /** In an arena a starting address belongs to one block. */
  lemma SameBlock(bs: seq<Block>, base: int, total: nat, i: nat, j: nat)
    requires Tiles(bs, base, total) && i < |bs| && j < |bs| && bs[i].addr == bs[j].addr
    ensures i == j
  {
    if i != j { Outside(bs, base, total, i, j); }
  }

  /** A used block of either arena stays where it is and what it is when a new block is given away. */
  lemma WantedGrows(sys: seq<Block>, usr: seq<Block>, want: map<int, nat>, sys': seq<Block>, usr': seq<Block>, b: Block, isize: nat)
    requires Wanted(sys, usr, want) && b.Payload() !in want && Need(isize) <= b.size
    requires Used(sys') + Used(usr') == Used(sys) + Used(usr) + {b}
    ensures Wanted(sys', usr', want[b.Payload() := isize])
  {
    var more := want[b.Payload() := isize];
    forall p | p in more ensures exists c :: c in Used(sys') + Used(usr') && c.Payload() == p {
      if p == b.Payload() { assert b in Used(sys') + Used(usr'); }
      else {
        var c :| c in Used(sys) + Used(usr) && c.Payload() == p;
        assert c in Used(sys') + Used(usr');
      }
    }
  }

  lemma WantedShrinks(sys: seq<Block>, usr: seq<Block>, want: map<int, nat>, sys': seq<Block>, usr': seq<Block>, b: Block)
    requires Wanted(sys, usr, want)
    requires Used(sys') + Used(usr') == Used(sys) + Used(usr) - {b}
    requires forall c :: c in Used(sys) + Used(usr) && c.addr == b.addr ==> c == b
    ensures Wanted(sys', usr', want - {b.Payload()})
  {
    var left := want - {b.Payload()};
    forall p | p in left ensures exists c :: c in Used(sys') + Used(usr') && c.Payload() == p {
      var c :| c in Used(sys) + Used(usr) && c.Payload() == p;
      assert c in Used(sys') + Used(usr');
    }
  }

  /** Blocks of the two arenas start at different addresses. */
  lemma ArenasApart(mem: map<int, Header>, sys: seq<Block>, base: int, total: nat, usr: seq<Block>, base': int, total': nat, b: Block, c: Block)
    requires ArenaOk(mem, sys, base, total) && base > 0 && ArenaOk(mem, usr, base', total') && b in sys && c in usr
    requires base' != NULL ==> Disjoint(base, Extent(total), base', Extent(total'))
    ensures b.addr + Extent(b.size) <= c.addr || c.addr + Extent(c.size) <= b.addr
  {
    InArena(mem, sys, base, total, b);
    InArena(mem, usr, base', total', c);
  }

  /** Over both arenas, too, a starting address belongs to one block. */
  lemma OneBlockAt(mem: map<int, Header>, sys: seq<Block>, base: int, total: nat, usr: seq<Block>, base': int, total': nat, b: Block, c: Block)
    requires ArenaOk(mem, sys, base, total) && base > 0 && ArenaOk(mem, usr, base', total')
    requires base' != NULL ==> Disjoint(base, Extent(total), base', Extent(total'))
    requires b in sys + usr && c in sys + usr && b.addr == c.addr
    ensures b == c
  {
    if b in sys && c in usr {
      ArenasApart(mem, sys, base, total, usr, base', total', b, c);
    } else if b in usr && c in sys {
      ArenasApart(mem, sys, base, total, usr, base', total', c, b);
    } else {
      var bs := if b in sys then sys else usr;
      var i :| 0 <= i < |bs| && bs[i] == b;
      var j :| 0 <= j < |bs| && bs[j] == c;
      SameBlock(bs, if b in sys then base else base', if b in sys then total else total', i, j);
    }
  }

  lemma InArena(mem: map<int, Header>, bs: seq<Block>, base: int, total: nat, b: Block)
    requires ArenaOk(mem, bs, base, total) && b in bs
    ensures base <= b.addr && b.End() <= base + total && b.addr + Extent(b.size) <= base + Extent(total)
    ensures (b.addr - base) % 32 == 0 && base > 0
  {
    var i :| 0 <= i < |bs| && bs[i] == b;
    BlocksApart(bs, base, total, i, i);
  }

  /** Giving away a block of one arena keeps both arenas. */
  lemma AllocArenas(mem: map<int, Header>, bs: seq<Block>, base: int, total: nat, other: seq<Block>, base': int, total': nat, i: nat, isize: nat)
    requires ArenaOk(mem, bs, base, total) && base > 0 && ArenaOk(mem, other, base', total')
    requires base' != NULL ==> Disjoint(base, Extent(total), base', Extent(total'))
    requires i < |bs| && Fits(bs[i], Need(isize)) && LinkedAt(mem, bs, i)
    ensures ArenaOk(CarveMem(mem, bs[i].addr, Need(isize)), AllocAt(bs, i, Need(isize)), base, total)
    ensures ArenaOk(CarveMem(mem, bs[i].addr, Need(isize)), other, base', total')
  {
    CarveLinks(mem, bs, i, Need(isize), base, total);
    AllocKeeps(bs, i, isize, base, total);
    if base' != NULL { LinkedElsewhere(mem, CarveMem(mem, bs[i].addr, Need(isize)), base, total, other, base', total'); }
  }

  /** A free block of either arena is nobody's payload. */
  lemma FreeUnwanted(mem: map<int, Header>, sys: seq<Block>, base: int, total: nat, usr: seq<Block>, base': int, total': nat, want: map<int, nat>, b: Block)
    requires ArenaOk(mem, sys, base, total) && base > 0 && ArenaOk(mem, usr, base', total') && Wanted(sys, usr, want)
    requires base' != NULL ==> Disjoint(base, Extent(total), base', Extent(total'))
    requires b in sys + usr && b.free
    ensures b.Payload() !in want
  {
    if b.Payload() in want {
      var c :| c in Used(sys) + Used(usr) && c.Payload() == b.Payload();
      OneBlockAt(mem, sys, base, total, usr, base', total', b, c);
    }
  }

  /** What the writes of `mb_alloc` rely on */
  lemma NextElsewhere(mem: map<int, Header>, bs: seq<Block>, base: int, total: nat, i: nat)
    requires ArenaOk(mem, bs, base, total) && base > 0 && i < |bs| && LinkedAt(mem, bs, i)
    ensures var tmp := bs[i].addr; mem[tmp].next != NULL ==> mem[tmp].next in mem && mem[tmp].next != tmp
    ensures bs[i].addr > 0
  {
    BlocksApart(bs, base, total, i, i);
    if i < |bs| - 1 { Outside(bs, base, total, i, i + 1); assert LinkedAt(mem, bs, i + 1); }
  }

  /** The whole buffer: two arenas and the payloads in use */
  ghost predicate BufferOk(mem: map<int, Header>, sys: seq<Block>, base: int, total: nat, usr: seq<Block>, base': int, total': nat, want: map<int, nat>) {
    && base > 0 && ArenaOk(mem, sys, base, total) && ArenaOk(mem, usr, base', total')
    && (base' != NULL ==> Disjoint(base, Extent(total), base', Extent(total')))
    && Wanted(sys, usr, want)
  }

  lemma AllocInSys(mem: map<int, Header>, sys: seq<Block>, base: int, total: nat, usr: seq<Block>, base': int, total': nat, want: map<int, nat>, i: nat, isize: nat)
    requires BufferOk(mem, sys, base, total, usr, base', total', want)
    requires i < |sys| && Fits(sys[i], Need(isize)) && LinkedAt(mem, sys, i)
    ensures BufferOk(CarveMem(mem, sys[i].addr, Need(isize)), AllocAt(sys, i, Need(isize)), base, total, usr, base', total',
                     want[sys[i].Payload() := isize])
    ensures sys[i].Payload() !in want
  {
    hide Tiles, Coalesced, Linked, Wanted, CarveMem, AllocAt, Used, ArenaOk;
    FreeUnwanted(mem, sys, base, total, usr, base', total', want, sys[i]);
    AllocArenas(mem, sys, base, total, usr, base', total', i, isize);
    AllocUses(sys, i, Need(isize));
    WantedGrows(sys, usr, want, AllocAt(sys, i, Need(isize)), usr, Given(sys[i], Need(isize)), isize);
  }

  lemma AllocInUsr(mem: map<int, Header>, sys: seq<Block>, base: int, total: nat, usr: seq<Block>, base': int, total': nat, want: map<int, nat>, i: nat, isize: nat)
    requires BufferOk(mem, sys, base, total, usr, base', total', want) && base' > 0
    requires i < |usr| && Fits(usr[i], Need(isize)) && LinkedAt(mem, usr, i)
    ensures BufferOk(CarveMem(mem, usr[i].addr, Need(isize)), sys, base, total, AllocAt(usr, i, Need(isize)), base', total',
                     want[usr[i].Payload() := isize])
    ensures usr[i].Payload() !in want
  {
    hide Tiles, Coalesced, Linked, Wanted, CarveMem, AllocAt, Used, ArenaOk;
    FreeUnwanted(mem, sys, base, total, usr, base', total', want, usr[i]);
    AllocArenas(mem, usr, base', total', sys, base, total, i, isize);
    AllocUses(usr, i, Need(isize));
    WantedGrows(sys, usr, want, sys, AllocAt(usr, i, Need(isize)), Given(usr[i], Need(isize)), isize);
  }

  lemma Heads(mem: map<int, Header>, bs: seq<Block>, base: int, total: nat)
    requires ArenaOk(mem, bs, base, total)
    ensures Linked(mem, bs) && (bs != [] ==> base == bs[0].addr) && (bs == [] <==> base == NULL) && base >= 0
  { }

  /** A block of one arena comes back: both arenas stay in order. */
  lemma FreeArenas(mem: map<int, Header>, bs: seq<Block>, base: int, total: nat, other: seq<Block>, base': int, total': nat, i: nat)
    requires ArenaOk(mem, bs, base, total) && base > 0 && ArenaOk(mem, other, base', total')
    requires base' != NULL ==> Disjoint(base, Extent(total), base', Extent(total'))
    requires i < |bs| && !bs[i].free
    ensures FreeReady(mem, bs[i].addr)
    ensures ArenaOk(FreeMem(mem, bs[i].addr), FreeAt(bs, i), base, total)
    ensures ArenaOk(FreeMem(mem, bs[i].addr), other, base', total')
    ensures Used(FreeAt(bs, i)) == Used(bs) - {bs[i]}
  {
    FreeRelinks(mem, bs, i, base, total);
    FreeKeeps(bs, i, base, total);
    FreeReturns(bs, i, base, total);
    if base' != NULL { LinkedElsewhere(mem, FreeMem(mem, bs[i].addr), base, total, other, base', total'); }
  }

  lemma FreeInSys(mem: map<int, Header>, sys: seq<Block>, base: int, total: nat, usr: seq<Block>, base': int, total': nat, want: map<int, nat>, i: nat)
    requires BufferOk(mem, sys, base, total, usr, base', total', want)
    requires i < |sys| && !sys[i].free
    ensures FreeReady(mem, sys[i].addr)
    ensures BufferOk(FreeMem(mem, sys[i].addr), FreeAt(sys, i), base, total, usr, base', total', want - {sys[i].Payload()})
  {
    FreeArenas(mem, sys, base, total, usr, base', total', i);
    OnlyOne(mem, sys, base, total, usr, base', total', want, sys[i]);
    WantedShrinks(sys, usr, want, FreeAt(sys, i), usr, sys[i]);
  }

  lemma FreeInUsr(mem: map<int, Header>, sys: seq<Block>, base: int, total: nat, usr: seq<Block>, base': int, total': nat, want: map<int, nat>, i: nat)
    requires BufferOk(mem, sys, base, total, usr, base', total', want) && base' > 0
    requires i < |usr| && !usr[i].free
    ensures FreeReady(mem, usr[i].addr)
    ensures BufferOk(FreeMem(mem, usr[i].addr), sys, base, total, FreeAt(usr, i), base', total', want - {usr[i].Payload()})
  {
    FreeArenas(mem, usr, base', total', sys, base, total, i);
    OnlyOne(mem, sys, base, total, usr, base', total', want, usr[i]);
    WantedShrinks(sys, usr, want, sys, FreeAt(usr, i), usr[i]);
  }

  lemma OnlyOne(mem: map<int, Header>, sys: seq<Block>, base: int, total: nat, usr: seq<Block>, base': int, total': nat, want: map<int, nat>, b: Block)
    requires BufferOk(mem, sys, base, total, usr, base', total', want) && b in sys + usr
    ensures forall c :: c in sys + usr && c.addr == b.addr ==> c == b
    ensures b in sys <==> b !in usr
  {
    forall c | c in sys + usr && c.addr == b.addr ensures c == b {
      OneBlockAt(mem, sys, base, total, usr, base', total', b, c);
    }
    if b in sys && b in usr {
      ArenasApart(mem, sys, base, total, usr, base', total', b, b);
    }
  }

  /** A payload on record is a used block of one of the arenas. */
  lemma Whereabouts(mem: map<int, Header>, sys: seq<Block>, base: int, total: nat, usr: seq<Block>, base': int, total': nat, want: map<int, nat>, item: int)
    requires BufferOk(mem, sys, base, total, usr, base', total', want) && item in want
    ensures var a := item - HEADER;
            var i, j := IndexOf(sys, a), IndexOf(usr, a);
            (i < |sys| && !sys[i].free) || (i == |sys| && j < |usr| && !usr[j].free && base' > 0)
  {
    var b :| b in Used(sys) + Used(usr) && b.Payload() == item;
    OnlyOne(mem, sys, base, total, usr, base', total', want, b);
    var i, j := IndexOf(sys, b.addr), IndexOf(usr, b.addr);
    if i < |sys| { assert sys[i] in sys + usr && sys[i] == b; }
    if j < |usr| { assert usr[j] in sys + usr && usr[j] == b; }
  }

  /** The first header of an attached arena tells whether anything of it is in use. */
  lemma UnusedIff(mem: map<int, Header>, bs: seq<Block>, base: int, total: nat)
    requires ArenaOk(mem, bs, base, total) && base != NULL
    ensures base in mem
    ensures mem[base].free && mem[base].next == NULL <==> Used(bs) == {}
    ensures mem[base].free && mem[base].next == NULL ==> mem[base].size == total
  {
    assert LinkedAt(mem, bs, 0);
    if |bs| > 1 { assert LinkedAt(mem, bs, 1); }
    AllFreeIsOne(bs, base, total);
    if Used(bs) == {} {
      forall i | 0 <= i < |bs| ensures bs[i].free { assert bs[i] in bs; assert bs[i] !in Used(bs); }
    }
    if mem[base].free && mem[base].next == NULL {
      assert bs == [bs[0]];
      assert forall b :: b in bs ==> b == bs[0];
    }
  }

  lemma UnusedIs(bs: seq<Block>, base: int, total: nat)
    requires Tiles(bs, base, total) && Coalesced(bs)
    ensures Used(bs) == {} <==> bs == [Block(base, total, true)]
  {
    AllFreeIsOne(bs, base, total);
    if Used(bs) == {} {
      forall i | 0 <= i < |bs| ensures bs[i].free { assert bs[i] in bs; assert bs[i] !in Used(bs); }
    }
  }

  /** Two blocks of the buffer that start at different places do not overlap. */
  lemma BlocksClear(mem: map<int, Header>, sys: seq<Block>, base: int, total: nat, usr: seq<Block>, base': int, total': nat, b: Block, c: Block)
    requires ArenaOk(mem, sys, base, total) && base > 0 && ArenaOk(mem, usr, base', total')
    requires base' != NULL ==> Disjoint(base, Extent(total), base', Extent(total'))
    requires b in sys + usr && c in sys + usr && b.addr != c.addr
    ensures b.addr + Extent(b.size) <= c.addr || c.addr + Extent(c.size) <= b.addr
  {
    if b in sys && c in usr {
      ArenasApart(mem, sys, base, total, usr, base', total', b, c);
    } else if b in usr && c in sys {
      ArenasApart(mem, sys, base, total, usr, base', total', c, b);
    } else {
      var bs := if b in sys then sys else usr;
      var i :| 0 <= i < |bs| && bs[i] == b;
      var j :| 0 <= j < |bs| && bs[j] == c;
      BlocksApart(bs, if b in sys then base else base', if b in sys then total else total', if i < j then i else j, if i < j then j else i);
    }
  }

  lemma SizedFor(mem: map<int, Header>, sys: seq<Block>, base: int, total: nat, usr: seq<Block>, base': int, total': nat, want: map<int, nat>, c: Block)
    requires BufferOk(mem, sys, base, total, usr, base', total', want) && c in sys + usr && c.Payload() in want
    ensures !c.free && want[c.Payload()] + HEADER <= c.size
  {
    var b :| b in Used(sys) + Used(usr) && b.Payload() == c.Payload();
    OneBlockAt(mem, sys, base, total, usr, base', total', b, c);
  }

  /** The used block behind a payload on record */
  lemma BlockOf(mem: map<int, Header>, sys: seq<Block>, base: int, total: nat, usr: seq<Block>, base': int, total': nat, want: map<int, nat>, p: int) returns (b: Block)
    requires BufferOk(mem, sys, base, total, usr, base', total', want) && p in want
    ensures b in Used(sys) + Used(usr) && b.Payload() == p && want[p] + HEADER <= b.size
  {
    b :| b in Used(sys) + Used(usr) && b.Payload() == p;
  }

  /**
   * A payload in use lies behind its own header, inside one arena, 32 bytes
   * aligned to its start and with the room that was asked for.
   */
  lemma LiveInside(mem: map<int, Header>, sys: seq<Block>, base: int, total: nat, usr: seq<Block>, base': int, total': nat, want: map<int, nat>, p: int)
    requires BufferOk(mem, sys, base, total, usr, base', total', want) && p in want
    ensures (base + HEADER <= p && p + want[p] <= base + total && (p - base) % 32 == 0)
            || (base' != NULL && base' + HEADER <= p && p + want[p] <= base' + total' && (p - base') % 32 == 0)
  {
    var b := BlockOf(mem, sys, base, total, usr, base', total', want, p);
    hide Wanted, Tiles, Linked, Coalesced;
    if b in sys {
      InArena(mem, sys, base, total, b);
      Shifted(b.addr - base);
    } else {
      InArena(mem, usr, base', total', b);
      Shifted(b.addr - base');
    }
  }

  lemma Shifted(x: int)
    requires x % 32 == 0
    ensures (x + HEADER) % 32 == 0
  { }

  /** It overlaps no header of any block, free or used, and no other payload in use. */
  lemma LiveApart(mem: map<int, Header>, sys: seq<Block>, base: int, total: nat, usr: seq<Block>, base': int, total': nat, want: map<int, nat>, p: int, c: Block)
    requires BufferOk(mem, sys, base, total, usr, base', total', want) && p in want && c in sys + usr
    ensures c.addr + HEADER <= p || p + want[p] <= c.addr
    ensures c.Payload() in want && c.Payload() != p ==> c.Payload() + want[c.Payload()] <= p || p + want[p] <= c.Payload()
  {
    var b := BlockOf(mem, sys, base, total, usr, base', total', want, p);
    hide Wanted, Tiles, Linked, Coalesced, ArenaOk;
    if c.addr == b.addr {
      OneBlockAt(mem, sys, base, total, usr, base', total', b, c);
    } else {
      BlocksClear(mem, sys, base, total, usr, base', total', b, c);
      if c.Payload() in want { SizedFor(mem, sys, base, total, usr, base', total', want, c); }
    }
  }

  lemma OnRecord(sys: seq<Block>, usr: seq<Block>, want: map<int, nat>, b: Block)
    requires Wanted(sys, usr, want) && b in Used(sys) + Used(usr)
    ensures b.Payload() in want
  { }

  /** When every payload has been given back, in whatever order, each arena is the one block it started as. */
  lemma AllGivenBack(mem: map<int, Header>, sys: seq<Block>, base: int, total: nat, usr: seq<Block>, base': int, total': nat, want: map<int, nat>)
    requires BufferOk(mem, sys, base, total, usr, base', total', want)
    ensures want == map[] <==> sys == [Block(base, total, true)] && (base' != NULL ==> usr == [Block(base', total', true)])
  {
    UnusedIs(sys, base, total);
    if base' != NULL { UnusedIs(usr, base', total'); }
    if p :| p in want {
      var b := BlockOf(mem, sys, base, total, usr, base', total', want, p);
    } else {
      forall b ensures b !in Used(sys) && b !in Used(usr) {
        if b in Used(sys) + Used(usr) { OnRecord(sys, usr, want, b); }
      }
      assert forall p :: p !in want;
      assert Used(sys) == {} && Used(usr) == {} && want == map[];
    }
  }

  class Buffers {
    var mem: map<int, Header>
    var sysBuffer: int
    var usrBuffer: int
    ghost var sys: seq<Block>
    ghost var usr: seq<Block>
    ghost var sysSize: nat
    ghost var usrSize: nat
    /** The payloads in use, with the sizes that were asked for */
    ghost var want: map<int, nat>

    ghost predicate Valid()
      reads this
    {
      BufferOk(mem, sys, sysBuffer, sysSize, usr, usrBuffer, usrSize, want)
    }

    /**
     * The loop of `mb_init`, where `malloc(n)` succeeds if and only if
     * `n <= room`: the request is raised to a megabyte and shrinks by a
     * megabyte after each failure.
     */
    static method InitSize(bsize: int, room: int) returns (done: bool, size: int)
      ensures done <==> bsize > 0 && room >= 0x100000
      ensures done ==> 0x100000 <= size <= room
      ensures done && bsize <= 0x100000 ==> size == 0x100000
      ensures done && 0x100000 <= bsize <= room ==> size == bsize
      ensures done && bsize > 0x100000 && room < bsize ==> room - 0x100000 < size && (size == 0x100000 || (bsize - size) % 0x100000 == 0)
    {
      done, size := false, bsize;
      while !done && size > 0
        invariant done ==> bsize > 0 && MEGABYTE <= size <= room
        invariant size <= 0 ==> bsize <= 0 || room < MEGABYTE
        invariant bsize <= MEGABYTE ==> size == bsize || size <= 0 || size == MEGABYTE
        invariant bsize >= MEGABYTE && size != bsize ==> room < bsize
        invariant bsize > MEGABYTE && size != bsize ==> room < size + MEGABYTE && (size <= 0 || size == MEGABYTE || (bsize - size) % MEGABYTE == 0)
        decreases !done, if size > 0 then (size + MEGABYTE - 1) / MEGABYTE else 0
      {
        if size < MEGABYTE { size := MEGABYTE; }
        if size <= room { done := true; break; } else { size := size - MEGABYTE; }
      }
    }

    /** The rest of `mb_init`: `arena` is what `malloc` returned for `size` bytes. */
    constructor (arena: int, size: nat)
      requires arena > 0 && size >= HEADER
      ensures Valid() && usrBuffer == NULL && want == map[] && sysBuffer == arena && sysSize == size
      ensures sys == [Block(arena, size, true)] && usr == []
    {
      mem := map[arena := Header(NULL, NULL, true, size)];
      sysBuffer, usrBuffer := arena, NULL;
      sys, usr, sysSize, usrSize, want := [Block(arena, size, true)], [], size, 0, map[];
    }

    /** The first-fit loop of `mb_alloc` over one arena */
    method Scan(first: int, ghost bs: seq<Block>, need: nat) returns (tmp: int)
      requires Linked(mem, bs) && (bs != [] ==> first == bs[0].addr) && (bs == [] ==> first == NULL)
      ensures var i := FirstFit(bs, need); tmp == if i < |bs| then bs[i].addr else NULL
      ensures FirstFit(bs, need) < |bs| ==> tmp != NULL && LinkedAt(mem, bs, FirstFit(bs, need))
    {
      tmp := first;
      ghost var k := 0;
      if bs != [] { assert LinkedAt(mem, bs, 0); }
      while tmp != NULL && (!mem[tmp].free || mem[tmp].size < need)
        invariant 0 <= k <= |bs| && tmp == if k < |bs| then bs[k].addr else NULL
        invariant k < |bs| ==> LinkedAt(mem, bs, k)
        invariant forall j :: 0 <= j < k ==> !Fits(bs[j], need)
        decreases |bs| - k
      {
        tmp := mem[tmp].next;
        k := k + 1;
        assert k < |bs| ==> LinkedAt(mem, bs, k);
      }
    }

    /** Lines 204-217 of `mb_alloc`: mark the block, and split it when the rest is worth it. */
    method Carve(tmp: int, need: nat)
      requires tmp in mem && tmp != NULL && need >= HEADER
      requires mem[tmp].next != NULL ==> mem[tmp].next in mem && mem[tmp].next != tmp
      modifies this`mem
      ensures mem == CarveMem(old(mem), tmp, need)
      ensures tmp in mem && !mem[tmp].free && mem[tmp].pre == old(mem)[tmp].pre
      ensures old(mem)[tmp].size < need + 96 ==> mem[tmp].size == old(mem)[tmp].size && mem[tmp].next == old(mem)[tmp].next
      ensures old(mem)[tmp].size >= need + 96 ==>
                && mem[tmp].size == need && mem[tmp].next == tmp + need && tmp + need in mem
                && (mem[tmp + need] == Header(tmp, old(mem)[tmp].next, true, old(mem)[tmp].size - need) || old(mem)[tmp].next == tmp + need)
    {
      mem := mem[tmp := mem[tmp].(free := false)];
      if mem[tmp].size >= need + MIN_FRAGMENT {
        var tmpnext := tmp + need;
        mem := mem[tmpnext := Header(tmp, mem[tmp].next, true, mem[tmp].size - need)];
        var n := mem[tmpnext].next;
        if n != NULL { mem := mem[n := mem[n].(pre := tmpnext)]; }
        mem := mem[tmp := mem[tmp].(size := need, next := tmpnext)];
        assert mem == CarveMem(old(mem), tmp, need);
      }
    }

    /** `mb_alloc` */
    method MbAlloc(isize: nat) returns (item: int)
      requires Valid()
      modifies this
      ensures Valid() && sysBuffer == old(sysBuffer) && usrBuffer == old(usrBuffer) && sysSize == old(sysSize) && usrSize == old(usrSize)
      ensures var need, i, j := Need(isize), FirstFit(old(sys), Need(isize)), FirstFit(old(usr), Need(isize));
              if i < |old(sys)| then
                item == old(sys)[i].Payload() && sys == AllocAt(old(sys), i, need) && usr == old(usr)
              else if j < |old(usr)| then
                item == old(usr)[j].Payload() && usr == AllocAt(old(usr), j, need) && sys == old(sys)
              else
                item == NULL && sys == old(sys) && usr == old(usr) && mem == old(mem)
      ensures item != NULL <==> Serves(old(Lists(sys, usr)), isize)
      ensures item != NULL ==> Lists(sys, usr) == After(old(Lists(sys, usr)), isize)
      ensures item != NULL ==> item !in old(want) && want == old(want)[item := isize]
      ensures item == NULL ==> want == old(want)
    {
      hide Tiles, Coalesced, Linked, Wanted, CarveMem, AllocAt, Used, FirstFit, ArenaOk, Need;
      Heads(mem, sys, sysBuffer, sysSize);
      Heads(mem, usr, usrBuffer, usrSize);
      var need := Need(isize);
      var inSys := true;
      var tmp := Scan(sysBuffer, sys, need);
      if tmp == NULL && usrBuffer != NULL {
        inSys := false;
        tmp := Scan(usrBuffer, usr, need);
      }
      if tmp == NULL { return NULL; }
      item := tmp + HEADER;
      if inSys {
        ghost var i := FirstFit(sys, need);
        NextElsewhere(mem, sys, sysBuffer, sysSize, i);
        AllocInSys(mem, sys, sysBuffer, sysSize, usr, usrBuffer, usrSize, want, i, isize);
        Carve(tmp, need);
        sys := AllocAt(sys, i, need);
      } else {
        ghost var i := FirstFit(usr, need);
        NextElsewhere(mem, usr, usrBuffer, usrSize, i);
        AllocInUsr(mem, sys, sysBuffer, sysSize, usr, usrBuffer, usrSize, want, i, isize);
        Carve(tmp, need);
        usr := AllocAt(usr, i, need);
      }
      want := want[item := isize];
    }

    /** `mb_free` */
    method MbFree(item: int)
      requires Valid() && item in want
      modifies this
      ensures Valid() && sysBuffer == old(sysBuffer) && usrBuffer == old(usrBuffer) && sysSize == old(sysSize) && usrSize == old(usrSize)
      ensures want == old(want) - {item}
      ensures var i, j := IndexOf(old(sys), item - HEADER), IndexOf(old(usr), item - HEADER);
              if i < |old(sys)| then sys == FreeAt(old(sys), i) && usr == old(usr)
              else j < |old(usr)| && usr == FreeAt(old(usr), j) && sys == old(sys)
    {
      hide Tiles, Coalesced, Linked, Wanted, FreeAt, Used, ArenaOk;
      var bh := item - HEADER;
      Whereabouts(mem, sys, sysBuffer, sysSize, usr, usrBuffer, usrSize, want, item);
      ghost var i, j := IndexOf(sys, bh), IndexOf(usr, bh);
      if i < |sys| {
        FreeInSys(mem, sys, sysBuffer, sysSize, usr, usrBuffer, usrSize, want, i);
      } else {
        FreeInUsr(mem, sys, sysBuffer, sysSize, usr, usrBuffer, usrSize, want, j);
      }
      Unlink(bh);
      if i < |sys| { sys := FreeAt(sys, i); } else { usr := FreeAt(usr, j); }
      want := want - {item};
    }

    /** Lines 229-253 of `mb_free`: the four ways to melt with the neighbours */
    method Unlink(bh: int)
      requires FreeReady(mem, bh)
      modifies this`mem
      ensures mem == FreeMem(old(mem), bh)
    {
      var h := mem[bh];
      if h.next != NULL && mem[h.next].free {
        var nn := mem[h.next].next;
        if h.pre != NULL && mem[h.pre].free {
          mem := mem[h.pre := mem[h.pre].(size := mem[h.pre].size + h.size + mem[h.next].size)];
          mem := mem[h.pre := mem[h.pre].(next := nn)];
          if nn != NULL { mem := mem[nn := mem[nn].(pre := h.pre)]; }
        } else {
          mem := mem[bh := h.(free := true)];
          mem := mem[bh := mem[bh].(size := h.size + mem[h.next].size)];
          mem := mem[bh := mem[bh].(next := nn)];
          if nn != NULL { mem := mem[nn := mem[nn].(pre := bh)]; }
        }
      } else if h.pre != NULL && mem[h.pre].free {
        mem := mem[h.pre := mem[h.pre].(size := mem[h.pre].size + h.size)];
        mem := mem[h.pre := mem[h.pre].(next := h.next)];
        if h.next != NULL { mem := mem[h.next := mem[h.next].(pre := h.pre)]; }
      } else {
        mem := mem[bh := h.(free := true)];
      }
    }

    /**
     * `mb_attach_buffer`, for memory of the caller's own.  Its first header is
     * written whatever the size is, so the room that it takes has to be the
     * caller's even where `bsize` is less than a header.
     */
    method MbAttach(buf: int, bsize: nat) returns (r: int)
      requires Valid() && buf > 0 && Disjoint(sysBuffer, Extent(sysSize), buf, Extent(bsize))
      modifies this
      ensures Valid() && sys == old(sys) && sysBuffer == old(sysBuffer) && sysSize == old(sysSize) && want == old(want)
      ensures r == if old(usrBuffer) == NULL then 0 else -1
      ensures r == 0 ==> usrBuffer == buf && usrSize == bsize && usr == [Block(buf, bsize, true)]
      ensures r != 0 ==> usrBuffer == old(usrBuffer) && usrSize == old(usrSize) && usr == old(usr) && mem == old(mem)
    {
      if usrBuffer != NULL { return -1; }
      usrBuffer := buf;
      mem := mem[buf := Header(NULL, NULL, true, bsize)];
      usr, usrSize := [Block(buf, bsize, true)], bsize;
      hide Wanted, Tiles, Coalesced;
      LinkedElsewhere(old(mem), mem, buf, bsize, sys, sysBuffer, sysSize);
      assert Used(usr) == {} == Used(old(usr));
      return 0;
    }

    /**
     * `mb_detach_buffer`; `buf0` and `size0` are what the caller's variables
     * hold before.  It succeeds exactly when nothing allocated from the
     * attached memory is in use, and then reports what was attached.
     */
    method MbDetach(buf0: int, size0: int) returns (r: int, buf: int, bsize: int)
      requires Valid()
      modifies this
      ensures Valid() && sys == old(sys) && sysBuffer == old(sysBuffer) && sysSize == old(sysSize) && want == old(want) && mem == old(mem)
      ensures r == if old(usrBuffer) != NULL && Used(old(usr)) == {} then 0 else -1
      ensures r == 0 ==> buf == old(usrBuffer) && bsize == old(usrSize) && usrBuffer == NULL && usr == []
      ensures r != 0 ==> usrBuffer == old(usrBuffer) && usr == old(usr) && usrSize == old(usrSize)
      ensures old(usrBuffer) == NULL ==> buf == buf0 && bsize == size0
      ensures old(usrBuffer) != NULL ==> buf == old(usrBuffer) && bsize == old(usr)[0].size
    {
      buf, bsize := buf0, size0;
      if usrBuffer == NULL { return -1, buf, bsize; }
      UnusedIff(mem, usr, usrBuffer, usrSize);
      assert LinkedAt(mem, usr, 0);
      buf, bsize := usrBuffer, mem[usrBuffer].size;
      if !mem[usrBuffer].free || mem[usrBuffer].next != NULL {
        return -1, buf, bsize;
      }
      usrBuffer := NULL;
      usr := [];
      return 0, buf, bsize;
    }
  }
}
