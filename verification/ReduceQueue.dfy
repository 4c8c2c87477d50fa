/**
 * The code of `reduce.c` on shared fields updated in place, cut where another
 * thread can come in between.  Every piece is proved to do the step that
 * `Reduce` says, so the invariant and the theorems about runs hold for it.
 */
module ReduceQueue {
  import opened Basics
  import opened Counting
  import opened ReduceOps
  import opened Reduce
  import opened ReduceProof
  import opened ReduceRounds

  /** `n` blank handles from `item` on, as `calloc` and the initial `avail` give them */
  method BlankChunk(heap: map<int, Node>, item: int, n: nat) returns (h: map<int, Node>)
    ensures h == heap + Blank(Range(item, item + n))
  {
    h := heap;
    var i := item;
    while i < item + n
      invariant item <= i <= item + n
      invariant forall a :: a in h <==> a in heap || item <= a < i
      invariant forall a :: a in h ==> h[a] == if item <= a < i then Node(NULL, -1, Nothing) else heap[a]
    {
      h := h[i := Node(NULL, -1, Nothing)];
      i := i + 1;
    }
  }

  lemma GatherReady(s: State, i: nat)
    requires Inv(s) && Known(s, i) && s.thread[i].pc.Gather?
    ensures s.thread[i].cur in s.heap && (s.thread[i].pc.ret == 0 ==> HasResult(s, i))
  {
    OwnRound(s, i);
    hide PlacesOk, ChainOk, ResultsOk, ThreadsOk;
  }

  lemma PopIs(s: State, i: nat)
    requires Enabled(s, DoTake(i))
    ensures s.pool != [] ==>
              var item, s' := s.pool[|s.pool| - 1], Step(s, DoTake(i));
              && item in s.heap
              && s' == s.(thread := s.thread[i := s.thread[i].(pc := Elect(item))], pool := s.pool[..|s.pool| - 1],
                          heap := s.heap[item := s.heap[item].(next := NULL, avail := -1)], place := s'.place)
  { hide Blank, Range, Upward, ChunkPlaces; }

  lemma ChunkIs(s: State, i: nat, s': State)
    requires Enabled(s, DoTake(i)) && s.pool == []
    requires s' == s.(thread := s'.thread, pool := s'.pool, heap := s'.heap, brk := s'.brk)
    requires s'.thread == s.thread[i := s.thread[i].(pc := Elect(s.brk))] && s'.pool == Upward(s.brk + 1, s.n)
    requires s'.heap == s.heap + Blank(Range(s.brk, s.brk + s.n)) && s'.brk == s.brk + s.n
    ensures Step(s, DoTake(i)) == s'.(place := Step(s, DoTake(i)).place)
  { hide Blank, Range, Upward, ChunkPlaces; }

  class Queue {
    var n: nat
    var root: nat
    var heap: map<int, Node>
    var brk: int
    var first: int
    var thread: seq<Thread>
    var pool: seq<int>
    // history
    ghost var ids: seq<int>
    ghost var ops: seq<Op>
    ghost var starter: seq<nat>
    ghost var got: seq<bool>
    ghost var filler: int
    ghost var past: seq<nat>
    ghost var contrib: seq<seq<seq<Int32>>>
    ghost var result: seq<Shared>
    ghost var codes: seq<seq<int>>
    ghost var place: map<int, Place>

    ghost function St(): State
      reads this
    { State(n, root, heap, brk, first, thread, pool, ids, ops, starter, got, filler, past, contrib, result, codes, place) }

    ghost method Record(s: State)
      modifies this`ids, this`ops, this`starter, this`got, this`filler, this`past, this`contrib, this`result, this`codes, this`place
      ensures ids == s.ids && ops == s.ops && starter == s.starter && got == s.mem && filler == s.filler && past == s.past
      ensures contrib == s.contrib && result == s.result && codes == s.codes && place == s.place
    {
      ids, ops, starter, got, filler, past, contrib, result, codes, place :=
        s.ids, s.ops, s.starter, s.mem, s.filler, s.past, s.contrib, s.result, s.codes, s.place;
    }

    /** `tmpi_rdcq_create` */
    constructor (groupsize: nat, who: nat)
      requires groupsize >= 2 && who < groupsize
      ensures St() == INIT(groupsize, who) && Inv(St())
    {
      n, root, brk, first := groupsize, who, groupsize + 2, 1;
      thread := seq(groupsize, i => Thread(NULL, NULL, [], SUM, Away));
      pool := Upward(2, groupsize + 1);
      new;
      heap := BlankChunk(map[], 1, groupsize + 1);
      assert heap == INIT(groupsize, who).heap;
      Record(INIT(groupsize, who));
      InitOk(groupsize, who);
    }

    method Stand(i: nat, pc: Pc)
      requires i < |thread|
      modifies this`thread
      ensures thread == old(thread)[i := old(thread)[i].(pc := pc)]
    { thread := thread[i := thread[i].(pc := pc)]; }

    /** `cas32` on the `avail` of a handle */
    method Cas32(h: int, old_: int, new_: int) returns (ok: bool)
      requires h in heap
      modifies this`heap
      ensures ok == (old(heap)[h].avail == old_)
      ensures heap == if ok then old(heap)[h := old(heap)[h].(avail := new_)] else old(heap)
    {
      ok := heap[h].avail == old_;
      if ok { heap := heap[h := heap[h].(avail := new_)]; }
    }

    method Enter(i: nat, send: seq<Int32>, op: Op)
      requires Inv(St()) && Enabled(St(), DoEnter(i, send, op))
      modifies this
      ensures St() == Step(old(St()), DoEnter(i, send, op)) && Inv(St())
      ensures thread[i].send == send && thread[i].op == op && contrib == old(contrib)[i := old(contrib)[i] + [send]]
    {
      hide Inv;
      ghost var s := St();
      StepKeeps(s, DoEnter(i, send, op));
      var curitem := thread[i].key;
      if curitem == NULL { curitem := first; }
      thread := thread[i := thread[i].(cur := curitem, send := send, op := op, pc := Test)];
      Record(Step(s, DoEnter(i, send, op)));
    }

    /** `if (curitem->avail==-1)` */
    method TestAvail(i: nat)
      requires Inv(St()) && Enabled(St(), DoTest(i))
      modifies this
      ensures St() == Step(old(St()), DoTest(i)) && Inv(St())
    {
      hide Inv;
      ghost var s := St();
      StepKeeps(s, DoTest(i));
      if heap[thread[i].cur].avail == -1 { Stand(i, Take); } else { Stand(i, Wait); }
      Record(Step(s, DoTest(i)));
    }

    method TakeHandle(i: nat)
      requires Inv(St()) && Enabled(St(), DoTake(i))
      modifies this
      ensures St() == Step(old(St()), DoTake(i)) && Inv(St())
    {
      ghost var s := St();
      StepKeeps(s, DoTake(i));
      hide Inv, Step, Enabled;
      if pool != [] { PopHandle(i); } else { NewChunk(i); }
    }

    /** The pool has a handle left. */
    method PopHandle(i: nat)
      requires Enabled(St(), DoTake(i)) && pool != []
      modifies this
      ensures St() == Step(old(St()), DoTake(i))
    {
      ghost var s := St();
      PopIs(s, i);
      assert PoolOk(s);
      hide Step;
      var item := pool[|pool| - 1];
      pool := pool[..|pool| - 1];
      heap := heap[item := heap[item].(next := NULL, avail := -1)];
      Stand(i, Elect(item));
      Record(Step(s, DoTake(i)));
    }

    /** The pool is empty: a chunk of `group_size` handles, the first for the thread and the others for the pool */
    method NewChunk(i: nat)
      requires Enabled(St(), DoTake(i)) && pool == [] && n >= 2
      modifies this
      ensures St() == Step(old(St()), DoTake(i))
    {
      ghost var s := St();
      hide Blank, ChunkPlaces, Range, Upward;
      var item := brk;
      var chunk := BlankChunk(heap, item, n);
      var rest := Upward(item + 1, n);
      ChunkIs(s, i, s.(thread := thread[i := thread[i].(pc := Elect(item))], heap := chunk, pool := rest, brk := brk + n));
      ghost var s' := Step(s, DoTake(i));
      hide *;
      heap, pool, brk := chunk, rest, brk + n;
      Stand(i, Elect(item));
      Record(s');
    }

    method RunForElection(i: nat) returns (won: bool)
      requires Inv(St()) && Enabled(St(), DoElect(i))
      modifies this
      ensures St() == Step(old(St()), DoElect(i)) && Inv(St())
      ensures won == (old(heap)[old(thread)[i].cur].avail == -1)
    {
      hide Inv;
      ghost var s := St();
      StepKeeps(s, DoElect(i));
      won := Cas32(thread[i].cur, -1, 0);
      Stand(i, if won then Fill(thread[i].pc.item) else Drop(thread[i].pc.item));
      Record(Step(s, DoElect(i)));
    }

    method DropHandle(i: nat)
      requires Inv(St()) && Enabled(St(), DoDrop(i))
      modifies this
      ensures St() == Step(old(St()), DoDrop(i)) && Inv(St())
    {
      hide Inv;
      ghost var s := St();
      StepKeeps(s, DoDrop(i));
      pool := pool + [thread[i].pc.item];
      Stand(i, Wait);
      Record(Step(s, DoDrop(i)));
    }

    /** The winner fills the handle; `mem` tells whether `cm_alloc` had memory, for the root its own buffer serves. */
    method FillHandle(i: nat, mem: bool)
      requires Inv(St()) && Enabled(St(), DoFill(i, mem))
      modifies this
      ensures St() == Step(old(St()), DoFill(i, mem)) && Inv(St())
    {
      hide Inv;
      ghost var s := St();
      StepKeeps(s, DoFill(i, mem));
      var t := thread[i];
      heap := heap[t.cur := heap[t.cur].(next := t.pc.item)];
      if mem {
        heap := heap[t.cur := heap[t.cur].(data := Res(t.send))];
        Stand(i, Announce(t.pc.item, 0));
      } else {
        heap := heap[t.cur := heap[t.cur].(data := Nothing)];
        Stand(i, Announce(t.pc.item, -2));
      }
      Record(Step(s, DoFill(i, mem)));
    }

    /** The winner makes the handle available; but for the root it returns, with the code `ret`. */
    method AnnounceRound(i: nat) returns (ret: int)
      requires Inv(St()) && Enabled(St(), DoAnnounce(i))
      modifies this
      ensures St() == Step(old(St()), DoAnnounce(i)) && Inv(St())
      ensures i != root ==> codes == old(codes)[i := old(codes)[i] + [ret]]
    {
      hide Inv;
      ghost var s := St();
      StepKeeps(s, DoAnnounce(i));
      var t := thread[i];
      ret := t.pc.ret;
      heap := heap[t.cur := heap[t.cur].(avail := 1)];
      if i == root { Stand(i, Gather(true, t.pc.item, ret)); }
      else { thread := thread[i := t.(key := t.pc.item, pc := Away)]; }
      Record(Step(s, DoAnnounce(i)));
    }

    /** `while (curitem->avail==0)`: the thread gets on if and only if the round is announced. */
    method TryWait(i: nat) returns (on: bool)
      requires Inv(St()) && i < |thread| && thread[i].pc.Wait?
      modifies this
      ensures Inv(St()) && on == Enabled(old(St()), DoPass(i))
      ensures St() == if on then Step(old(St()), DoPass(i)) else old(St())
    {
      ghost var s := St();
      OwnRound(s, i);
      hide Inv, SizesOk, PlacesOk, ChainOk, ResultsOk, ThreadsOk, RoundOk, KeyOk;
      on := heap[thread[i].cur].avail != 0;
      if on {
        StepKeeps(s, DoPass(i));
        Stand(i, Element(0));
        Record(Step(s, DoPass(i)));
      }
    }

    /** One atomic operation of `rdc_int_max`, `rdc_int_min` or `rdc_int_sum` */
    method CombineElement(i: nat)
      requires Inv(St()) && Enabled(St(), DoElement(i))
      modifies this
      ensures St() == Step(old(St()), DoElement(i)) && Inv(St())
    {
      hide Inv;
      ghost var s := St();
      StepKeeps(s, DoElement(i));
      var t := thread[i];
      if heap[t.cur].data == Nothing {
        Stand(i, SetKey(-2));
      } else {
        CombineData(i);
      }
      Record(Step(s, DoElement(i)));
    }

    /** The operation itself, on data that are there */
    method CombineData(i: nat)
      requires Enabled(St(), DoElement(i)) && HasResult(St(), i)
      modifies this`heap, this`thread
      ensures St() == Step(old(St()), DoElement(i))
    {
      var t := thread[i];
      var vals, e := heap[t.cur].data.vals, t.pc.e;
      if e >= Min(|t.send|, |vals|) {
        Stand(i, SetKey(0));
      } else if t.op == SUM {
        heap := heap[t.cur := heap[t.cur].(data := Res(vals[e := Apply(SUM, vals[e], t.send[e])]))];
        Stand(i, Element(e + 1));
      } else if (if t.op == MAX then t.send[e] <= vals[e] else t.send[e] >= vals[e]) {
        Stand(i, Element(e + 1));
      } else {
        Stand(i, Pc.Swap(e, vals[e]));
      }
    }

    /** `cas32(&(res[i]), tmp1, tmp2)` */
    method SwapElement(i: nat) returns (ok: bool)
      requires Inv(St()) && Enabled(St(), DoSwap(i))
      modifies this
      ensures St() == Step(old(St()), DoSwap(i)) && Inv(St())
      ensures ok <==> thread[i].pc == Element(old(thread)[i].pc.e + 1)
    {
      hide Inv;
      ghost var s := St();
      StepKeeps(s, DoSwap(i));
      var t := thread[i];
      var vals, e := heap[t.cur].data.vals, t.pc.e;
      ok := vals[e] == t.pc.seen;
      if ok { heap := heap[t.cur := heap[t.cur].(data := Res(vals[e := t.send[e]]))]; }
      Stand(i, Element(if ok then e + 1 else e));
      Record(Step(s, DoSwap(i)));
    }

    method AdvanceKey(i: nat)
      requires Inv(St()) && Enabled(St(), DoSetKey(i))
      modifies this
      ensures St() == Step(old(St()), DoSetKey(i)) && Inv(St())
    {
      hide Inv;
      ghost var s := St();
      StepKeeps(s, DoSetKey(i));
      thread := thread[i := thread[i].(key := heap[thread[i].cur].next, pc := Count(thread[i].pc.ret))];
      Record(Step(s, DoSetKey(i)));
    }

    /** `curitem->avail++`; but for the root the call returns, with the code `ret`. */
    method CountSelf(i: nat) returns (ret: int)
      requires Inv(St()) && Enabled(St(), DoCount(i))
      modifies this
      ensures St() == Step(old(St()), DoCount(i)) && Inv(St())
      ensures i != root ==> codes == old(codes)[i := old(codes)[i] + [ret]]
    {
      hide Inv;
      ghost var s := St();
      StepKeeps(s, DoCount(i));
      var cur := thread[i].cur;
      ret := thread[i].pc.ret;
      heap := heap[cur := heap[cur].(avail := heap[cur].avail + 1)];
      Stand(i, if i == root then Gather(false, NULL, ret) else Away);
      Record(Step(s, DoCount(i)));
    }

    /** The root's wait for `group_size`, what it copies out when the wait is over, and its return code */
    method TryGather(i: nat) returns (on: bool, out: Shared, ret: int)
      requires Inv(St()) && i < |thread| && thread[i].pc.Gather?
      modifies this
      ensures Inv(St()) && on == Enabled(old(St()), DoGather(i))
      ensures St() == if on then Step(old(St()), DoGather(i)) else old(St())
      ensures on ==> result == old(result) + [out] && codes == old(codes)[i := old(codes)[i] + [ret]]
    {
      GatherReady(St(), i);
      out, ret := Nothing, thread[i].pc.ret;
      on := heap[thread[i].cur].avail == n;
      if on {
        StepKeeps(St(), DoGather(i));
        hide Inv, Step;
        out := TakeResult(i);
      }
    }

    /** What the root does after its wait: a copy of the result, unless there was no memory for one */
    method TakeResult(i: nat) returns (out: Shared)
      requires Enabled(St(), DoGather(i))
      modifies this
      ensures St() == Step(old(St()), DoGather(i))
      ensures result == old(result) + [out] && codes == old(codes)[i := old(codes)[i] + [old(thread)[i].pc.ret]]
    {
      ghost var s := St();
      var t := thread[i];
      out := Nothing;
      if t.pc.ret == 0 {
        var vals := heap[t.cur].data.vals;
        out := Res(vals[..Min(|t.send|, |vals|)]);
      }
      first := heap[t.cur].next;
      heap := heap[t.cur := heap[t.cur].(data := Nothing)];
      Stand(i, GiveBack(t.pc.init, t.pc.item));
      Record(Step(s, DoGather(i)));
    }

    method ReturnHandle(i: nat)
      requires Inv(St()) && Enabled(St(), DoGiveBack(i))
      modifies this
      ensures St() == Step(old(St()), DoGiveBack(i)) && Inv(St())
    {
      hide Inv;
      ghost var s := St();
      StepKeeps(s, DoGiveBack(i));
      var t := thread[i];
      pool := pool + [t.cur];
      thread := thread[i := t.(key := if t.pc.init then t.pc.item else t.key, pc := Away)];
      Record(Step(s, DoGiveBack(i)));
    }
  }
}
