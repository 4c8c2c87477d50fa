/**
 * The code of `bcast.c` on shared fields updated in place, cut where another
 * thread can come in between.  Every piece is proved to do the step that
 * `Bcast` says, so the invariant and the theorems about runs hold for it.
 */
module BcastQueue {
  import opened Basics
  import opened Counting
  import opened Bcast
  import opened BcastProof

  /** Handle `item`, and the `n - 1` behind it linked one after the other, as the two linking loops of `bcast.c` do it */
  method LinkChunk(heap: map<int, Node>, item: int, n: nat) returns (h: map<int, Node>)
    requires n >= 2
    ensures h == heap + ChunkNodes(Range(item, item + n), item, item + n - 1)
  {
    h := heap[item := Node(NULL, 0, NoData)];
    var i := item + 1;
    while i < item + n
      invariant item < i <= item + n
      invariant forall a :: a in h <==> a in heap || item <= a < i
      invariant forall a :: a in h ==>
        h[a] == if item <= a < i then Node(if item < a < item + n - 1 then a + 1 else NULL, 0, NoData) else heap[a]
    {
      h := h[i := Node(if i < item + n - 1 then i + 1 else NULL, 0, NoData)];
      i := i + 1;
    }
  }

  lemma ChunkIs(s: State, s': State)
    requires Enabled(s, RootChunk) && s' == s.(root := s'.root, heap := s'.heap, brk := s'.brk)
    requires s'.heap == s.heap + ChunkNodes(Range(s.brk, s.brk + s.n), s.brk, s.brk + s.n - 1)
    requires s'.brk == s.brk + s.n && s'.root == s.root.(pc := Tail(s.brk))
    ensures Step(s, RootChunk) == s'.(place := Step(s, RootChunk).place)
  { hide ChunkNodes, ChunkPlaces, Range; }

  class Queue {
    var n: nat
    var heap: map<int, Node>
    var brk: int
    var free: int
    var first: int
    // local to the threads
    var root: Root
    var recv: seq<Recv>
    // history
    ghost var ids: seq<int>
    ghost var hist: seq<Data>
    ghost var sent: seq<seq<int>>
    ghost var past: seq<nat>
    ghost var got: seq<seq<Got>>
    ghost var fl: seq<int>
    ghost var place: map<int, Place>

    ghost function St(): State
      reads this
    { State(n, heap, brk, free, first, root, recv, ids, hist, sent, past, got, fl, place) }

    ghost method Record(s: State)
      modifies this`ids, this`hist, this`sent, this`past, this`got, this`fl, this`place
      ensures ids == s.ids && hist == s.hist && sent == s.sent && past == s.past && got == s.got && fl == s.fl && place == s.place
    {
      ids, hist, sent, past, got, fl, place := s.ids, s.hist, s.sent, s.past, s.got, s.fl, s.place;
    }

    /** `tmpi_bcq_create` */
    constructor (groupsize: nat)
      requires groupsize >= 2
      ensures St() == INIT(groupsize) && Inv(St())
    {
      n, brk, free, first := groupsize, groupsize + 2, 2, 1;
      root := Root(NULL, NULL, [], Out);
      recv := seq(groupsize - 1, i => Recv(NULL, NULL, [], Away));
      new;
      heap := LinkChunk(map[], 1, groupsize + 1);
      assert heap == INIT(groupsize).heap;
      Record(INIT(groupsize));
      InitOk(groupsize);
    }

    /** `casp` on the head of the free list */
    method Casp(old_: int, new_: int) returns (ok: bool)
      modifies this`free
      ensures ok == (old(free) == old_) && free == if ok then new_ else old(free)
    {
      ok := free == old_;
      if ok { free := new_; }
    }

    // ---------- The root ----------

    method EnterRoot(data: seq<int>)
      requires Inv(St()) && Enabled(St(), RootEnter(data))
      modifies this
      ensures St() == Step(old(St()), RootEnter(data)) && Inv(St())
    {
      hide PlacesOk, FreeOk, ChainOk, RootOk, RecvsOk;
      ghost var s := St();
      RootEnterOk(s, data);
      var curitem := root.key;
      if curitem == NULL { curitem := first; }
      root := root.(cur := curitem, data := data, pc := Head);
      Record(Step(s, RootEnter(data)));
    }

    /** `ret=*pfree` in `tmpi_bch_alloc` */
    method ReadHead()
      requires Inv(St()) && Enabled(St(), RootHead)
      modifies this
      ensures St() == Step(old(St()), RootHead) && Inv(St())
    {
      hide PlacesOk, FreeOk, ChainOk, RootOk, RecvsOk;
      ghost var s := St();
      HeadOk(s);
      var ret := free;
      if ret != NULL { root := root.(pc := Succ(ret)); } else { root := root.(pc := Chunk); }
      Record(Step(s, RootHead));
    }

    /** `localfree=ret->next` */
    method ReadSucc()
      requires Inv(St()) && Enabled(St(), RootSucc)
      modifies this
      ensures St() == Step(old(St()), RootSucc) && Inv(St())
    {
      hide PlacesOk, FreeOk, ChainOk, RootOk, RecvsOk;
      ghost var s := St();
      SuccOk(s);
      var localfree := heap[root.pc.ret].next;
      root := root.(pc := Swap(root.pc.ret, localfree));
      Record(Step(s, RootSucc));
    }

    method SwapHead()
      requires Inv(St()) && Enabled(St(), RootSwap)
      modifies this
      ensures St() == Step(old(St()), RootSwap) && Inv(St())
    {
      hide PlacesOk, FreeOk, ChainOk, RootOk, RecvsOk;
      ghost var s := St();
      SwapOk(s);
      var ok := Casp(root.pc.ret, root.pc.succ);
      root := root.(pc := if ok then Fill(root.pc.ret) else Head);
      Record(Step(s, RootSwap));
    }

    /** No handle is left: a chunk of `group_size` handles, the first for the root and the others linked */
    method AllocChunk()
      requires Inv(St()) && Enabled(St(), RootChunk)
      modifies this
      ensures St() == Step(old(St()), RootChunk) && Inv(St())
    {
      hide ChunkNodes, ChunkPlaces, Range;
      ghost var s := St();
      assert n >= 2;
      ChunkOk(s);
      var ret := brk;
      brk := brk + n;
      heap := LinkChunk(heap, ret, n);
      root := root.(pc := Tail(ret));
      ChunkIs(s, St());
      Record(Step(s, RootChunk));
    }

    /** `localfree[i].next=*pfree` */
    method ReadTail()
      requires Inv(St()) && Enabled(St(), RootTail)
      modifies this
      ensures St() == Step(old(St()), RootTail) && Inv(St())
    {
      hide PlacesOk, FreeOk, ChainOk, RootOk, RecvsOk;
      ghost var s := St();
      TailOk(s);
      var last := root.pc.item + n - 1;
      heap := heap[last := heap[last].(next := free)];
      root := root.(pc := Bcast.Splice(root.pc.item));
      Record(Step(s, RootTail));
    }

    method SpliceChunk()
      requires Inv(St()) && Enabled(St(), RootSplice)
      modifies this
      ensures St() == Step(old(St()), RootSplice) && Inv(St())
    {
      hide PlacesOk, FreeOk, ChainOk, RootOk, RecvsOk;
      ghost var s := St();
      SpliceOk(s);
      var ok := Casp(heap[root.pc.item + n - 1].next, root.pc.item + 1);
      root := root.(pc := if ok then Fill(root.pc.item) else Tail(root.pc.item));
      Record(Step(s, RootSplice));
    }

    /** The new handle becomes the next gate and the current one gets the data. */
    method FillHandle(mem: bool) returns (ret: int)
      requires Inv(St()) && Enabled(St(), RootFill(mem))
      modifies this
      ensures St() == Step(old(St()), RootFill(mem)) && Inv(St())
      ensures ret == if mem then 0 else -2
    {
      hide PlacesOk, FreeOk, ChainOk, RootOk, RecvsOk;
      ghost var s := St();
      FillOk(s, mem);
      var newitem, curitem := root.pc.item, root.cur;
      heap := heap[newitem := heap[newitem].(avail := 0, next := NULL)];
      heap := heap[curitem := heap[curitem].(next := newitem)];
      if mem {
        heap := heap[curitem := heap[curitem].(data := Buf(root.data))];
        ret := 0;
      } else {
        heap := heap[curitem := heap[curitem].(data := NoData)];
        ret := -2;
      }
      root := root.(pc := Publish(newitem));
      Record(Step(s, RootFill(mem)));
      assert heap == Step(s, RootFill(mem)).heap;
    }

    method MakeAvailable()
      requires Inv(St()) && Enabled(St(), RootPublish)
      modifies this
      ensures St() == Step(old(St()), RootPublish) && Inv(St())
    {
      hide PlacesOk, FreeOk, ChainOk, RootOk, RecvsOk;
      ghost var s := St();
      PublishOk(s);
      heap := heap[root.cur := heap[root.cur].(avail := 1)];
      root := root.(key := root.pc.item, pc := Out);
      Record(Step(s, RootPublish));
    }

    // ---------- The receivers ----------

    method EnterReceiver(j: nat, buf: seq<int>)
      requires Inv(St()) && Enabled(St(), RecvEnter(j, buf))
      modifies this
      ensures St() == Step(old(St()), RecvEnter(j, buf)) && Inv(St())
    {
      hide PlacesOk, FreeOk, ChainOk, RootOk, RecvsOk;
      ghost var s := St();
      EnterOk(s, j, buf);
      var curitem := recv[j].key;
      if curitem == NULL { curitem := first; }
      recv := recv[j := recv[j].(cur := curitem, buf := buf, pc := Wait)];
      Record(Step(s, RecvEnter(j, buf)));
    }

    /** `while (!curitem->avail)`: the receiver gets on if and only if the handle is available. */
    method TryWait(j: nat) returns (on: bool)
      requires Inv(St()) && j < |recv| && recv[j].pc.Wait?
      modifies this
      ensures Inv(St()) && on == Enabled(old(St()), RecvSee(j))
      ensures St() == if on then Step(old(St()), RecvSee(j)) else old(St())
    {
      ghost var s := St();
      OwnRound(s, j);
      assert RecvOk(s, j);
      on := heap[recv[j].cur].avail != 0;
      if on {
        SeeOk(s, j);
        recv := recv[j := recv[j].(pc := Copy)];
        Record(Step(s, RecvSee(j)));
      }
    }

    /** What the call of the receiver will return, and what its buffer holds from now on */
    method CopyData(j: nat) returns (ret: int, out: seq<int>)
      requires Inv(St()) && Enabled(St(), RecvCopy(j))
      modifies this
      ensures St() == Step(old(St()), RecvCopy(j)) && Inv(St())
      ensures got == old(got)[j := old(got)[j] + [Got(old(recv)[j].buf, ret, out)]]
    {
      hide PlacesOk, FreeOk, ChainOk, RootOk, RecvsOk;
      ghost var s := St();
      CopyOk(s, j);
      var curitem := heap[recv[j].cur];
      if curitem.data.Buf? {
        out, ret := CopyInto(recv[j].buf, curitem.data.units), 0;
      } else {
        out, ret := recv[j].buf, -2;
      }
      recv := recv[j := recv[j].(pc := SetKey(ret))];
      Record(Step(s, RecvCopy(j)));
    }

    method AdvanceKey(j: nat)
      requires Inv(St()) && Enabled(St(), RecvSetKey(j))
      modifies this
      ensures St() == Step(old(St()), RecvSetKey(j)) && Inv(St())
    {
      hide PlacesOk, FreeOk, ChainOk, RootOk, RecvsOk;
      ghost var s := St();
      SetKeyOk(s, j);
      var next := heap[recv[j].cur].next;
      recv := recv[j := recv[j].(key := next, pc := Count(recv[j].pc.ret))];
      Record(Step(s, RecvSetKey(j)));
    }

    /** `anf32(&(curitem->avail), 1)==bco->group_size` */
    method CountSelf(j: nat) returns (last: bool)
      requires Inv(St()) && Enabled(St(), RecvCount(j))
      modifies this
      ensures St() == Step(old(St()), RecvCount(j)) && Inv(St())
      ensures last <==> recv[j].pc.Last?
    {
      hide PlacesOk, FreeOk, ChainOk, RootOk, RecvsOk;
      ghost var s := St();
      CountOk(s, j);
      var cur := recv[j].cur;
      var now := heap[cur].avail + 1;
      heap := heap[cur := heap[cur].(avail := now)];
      last := now == n;
      recv := recv[j := recv[j].(pc := if last then Last(recv[j].pc.ret) else Away)];
      Record(Step(s, RecvCount(j)));
    }

    method FreeData(j: nat)
      requires Inv(St()) && Enabled(St(), RecvLast(j))
      modifies this
      ensures St() == Step(old(St()), RecvLast(j)) && Inv(St())
    {
      hide PlacesOk, FreeOk, ChainOk, RootOk, RecvsOk;
      ghost var s := St();
      LastStepOk(s, j);
      var cur := recv[j].cur;
      if recv[j].pc.ret == 0 { heap := heap[cur := heap[cur].(data := Freed)]; }
      first := heap[cur].next;
      recv := recv[j := recv[j].(pc := Reread)];
      Record(Step(s, RecvLast(j)));
    }

    /** `handle->next=*pfree` in `tmpi_bch_free` */
    method RereadHead(j: nat)
      requires Inv(St()) && Enabled(St(), RecvReread(j))
      modifies this
      ensures St() == Step(old(St()), RecvReread(j)) && Inv(St())
    {
      hide PlacesOk, FreeOk, ChainOk, RootOk, RecvsOk;
      ghost var s := St();
      RereadOk(s, j);
      heap := heap[recv[j].cur := heap[recv[j].cur].(next := free)];
      recv := recv[j := recv[j].(pc := Push)];
      Record(Step(s, RecvReread(j)));
    }

    method PushHandle(j: nat) returns (ok: bool)
      requires Inv(St()) && Enabled(St(), RecvPush(j))
      modifies this
      ensures St() == Step(old(St()), RecvPush(j)) && Inv(St())
      ensures ok <==> recv[j].pc.Away?
    {
      hide PlacesOk, FreeOk, ChainOk, RootOk, RecvsOk;
      ghost var s := St();
      PushOk(s, j);
      var cur := recv[j].cur;
      ok := Casp(heap[cur].next, cur);
      recv := recv[j := recv[j].(pc := if ok then Away else Reread)];
      Record(Step(s, RecvPush(j)));
    }
  }
}
