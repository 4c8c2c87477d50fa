/**
 * The reduction queue of one root (`reduce.c`, `rdc_op.c`).
 *
 * A queue belongs to one root of one group, so one queue is a whole system of
 * `n` threads.  The first thread to reach a round is elected by a
 * compare-and-swap on `avail`; the others combine their elements into the
 * shared result, each element by its own atomic operation; the root waits
 * until all have counted themselves, while the others may be rounds ahead.
 * Every access to shared memory that another thread can notice is one step;
 * taking a handle from the free list and giving one back are one step each.
 *
 * `ids`, `ops`, `starter`, `mem`, `filler`, `past`, `contrib`, `result`,
 * `codes`, `pool` and `place` are history, except that the pool also serves
 * the allocation.  `mem` says of each round whether there was memory for its
 * data, and `codes` what the calls of each thread returned.
 */
module Reduce {
  import opened Basics
  import opened Counting
  import opened ReduceOps

  const NULL := 0

  /** What the data pointer of a handle leads to; nothing if there was no memory for it */
  datatype Shared = Nothing | Res(vals: seq<Int32>)

  datatype Node = Node(next: int, avail: int, data: Shared)

  /**
   * Where a thread stands inside `tmpi_rdco_reduce`: before it reads `avail`;
   * before it takes a handle; before the election, with the handle; before it
   * gives the handle back, having lost; before it fills the current handle,
   * having won; before it makes it available; before it finds it available;
   * before the atomic operation on element `e`; before the compare-and-swap of
   * element `e`; before it sets its key; before it counts itself; the root,
   * before it finds everybody counted, and before it gives the handle back.
   */
  datatype Pc =
    | Away | Test | Take | Elect(item: int) | Drop(item: int) | Fill(item: int) | Announce(item: int, ret: int)
    | Wait | Element(e: nat) | Swap(e: nat, seen: Int32) | SetKey(ret: int) | Count(ret: int)
    | Gather(init: bool, item: int, ret: int) | GiveBack(init: bool, item: int)
  {
    /** In a call, and not yet counted */
    predicate InRound() { !Away? && !Gather? && !GiveBack? }
    predicate Holds(h: int) { (Elect? || Drop? || Fill?) && item == h }
    predicate Combining() { Element? || Swap? || SetKey? || Count? }
    /** The thread's own element `e` is in the shared result. */
    predicate Did(e: nat) { Announce? || SetKey? || Count? || (Element? && this.e > e) || (Swap? && this.e > e) }
  }

  datatype Thread = Thread(key: int, cur: int, send: seq<Int32>, op: Op, pc: Pc)

  /** The place of a handle: in the pool, holding round `k`, in the hands of thread `i`, or unlinked by the root */
  datatype Place = Pooled(depth: nat) | Live(k: nat) | Held(i: nat) | Unlinked

  datatype State = State(
    n: nat, root: nat, heap: map<int, Node>, brk: int, first: int, thread: seq<Thread>, pool: seq<int>,
    ids: seq<int>, ops: seq<Op>, starter: seq<nat>, mem: seq<bool>, filler: int, past: seq<nat>,
    contrib: seq<seq<seq<Int32>>>, result: seq<Shared>, codes: seq<seq<int>>, place: map<int, Place>)

  // ---------- Steps ----------

  datatype Action =
    | DoEnter(i: nat, send: seq<Int32>, op: Op) | DoTest(i: nat) | DoTake(i: nat) | DoElect(i: nat) | DoDrop(i: nat)
    | DoFill(i: nat, got: bool) | DoAnnounce(i: nat) | DoPass(i: nat) | DoElement(i: nat) | DoSwap(i: nat)
    | DoSetKey(i: nat) | DoCount(i: nat) | DoGather(i: nat) | DoGiveBack(i: nat)

  predicate PoolOk(s: State) { s.pool != [] ==> s.pool[|s.pool| - 1] in s.heap }

  predicate Sized(s: State) { |s.thread| == |s.past| == |s.contrib| == |s.codes| == s.n }

  /** The current handle is there, with a result of the shape that the thread relies on. */
  predicate HasResult(s: State, i: nat) requires i < |s.thread| {
    s.thread[i].cur in s.heap && s.heap[s.thread[i].cur].data.Res?
  }

  function Vals(s: State, i: nat): seq<Int32>
    requires i < |s.thread| && HasResult(s, i)
  { s.heap[s.thread[i].cur].data.vals }

  /**
   * The step can be taken: the thread stands there and, where it waits, what
   * it waits for holds.  All threads name the same operator in the same call
   * (section 4.9.1 of MPI 1.1).  The root has its own buffer for the data of
   * a round that it starts; any other thread may find no memory for them.
   */
  predicate Enabled(s: State, a: Action) {
    Sized(s) && a.i < s.n &&
    var i := a.i;
    var t := s.thread[i];
    match a
    case DoEnter(_, send, op) => t.pc.Away? && (|s.contrib[i]| < |s.ops| ==> op == s.ops[|s.contrib[i]|])
    case DoTest(_) => t.pc.Test? && t.cur in s.heap
    case DoTake(_) => t.pc.Take? && PoolOk(s)
    case DoElect(_) => t.pc.Elect? && t.cur in s.heap
    case DoDrop(_) => t.pc.Drop?
    case DoFill(_, got) => t.pc.Fill? && t.cur in s.heap && (i == s.root ==> got)
    case DoAnnounce(_) => t.pc.Announce? && t.cur in s.heap
    case DoPass(_) => t.pc.Wait? && t.cur in s.heap && s.heap[t.cur].avail != 0
    case DoElement(_) => t.pc.Element? && t.cur in s.heap
    case DoSwap(_) => t.pc.Swap? && HasResult(s, i) && t.pc.e < |t.send| && t.pc.e < |Vals(s, i)|
    case DoSetKey(_) => t.pc.SetKey? && t.cur in s.heap
    case DoCount(_) => t.pc.Count? && t.cur in s.heap
    case DoGather(_) => t.pc.Gather? && t.cur in s.heap && (t.pc.ret == 0 ==> HasResult(s, i)) && s.heap[t.cur].avail == s.n
    case DoGiveBack(_) => t.pc.GiveBack?
  }

  predicate Known(s: State, i: nat) { Sized(s) && i < s.n }

  function At(s: State, i: nat, pc: Pc): State
    requires Known(s, i)
  { s.(thread := s.thread[i := s.thread[i].(pc := pc)]) }

  function SetNode(s: State, h: int, node: Node): State { s.(heap := s.heap[h := node]) }

  /** `curitem`: the thread's own key, or the first handle while it has none */
  function Current(s: State, key: int): int { if key == NULL then s.first else key }

  function EnterStep(s: State, i: nat, send: seq<Int32>, op: Op): State
    requires Known(s, i)
  {
    s.(thread := s.thread[i := Thread(s.thread[i].key, Current(s, s.thread[i].key), send, op, Test)],
       contrib := s.contrib[i := s.contrib[i] + [send]],
       ops := if |s.contrib[i]| < |s.ops| then s.ops else s.ops + [op])
  }

  function TestStep(s: State, i: nat): State
    requires Known(s, i) && s.thread[i].cur in s.heap
  { At(s, i, if s.heap[s.thread[i].cur].avail == -1 then Take else Wait) }

  function Blank(chunk: set<int>): map<int, Node> { map h | h in chunk :: Node(NULL, -1, Nothing) }

  function ChunkPlaces(chunk: set<int>, item: int, i: nat): map<int, Place> {
    map h | h in chunk :: if h <= item then Held(i) else Pooled(h - item - 1)
  }

  /** `tmpi_rdch_alloc` as one step, and the two fields that the caller sets */
  function TakeStep(s: State, i: nat): State
    requires Known(s, i) && PoolOk(s)
  {
    if s.pool != [] then
      var item := s.pool[|s.pool| - 1];
      SetNode(At(s, i, Elect(item)), item, s.heap[item].(next := NULL, avail := -1)).(
        pool := s.pool[..|s.pool| - 1], place := s.place[item := Held(i)])
    else
      var chunk := Range(s.brk, s.brk + s.n);
      At(s, i, Elect(s.brk)).(heap := s.heap + Blank(chunk), brk := s.brk + s.n, pool := Upward(s.brk + 1, s.n),
                              place := s.place + ChunkPlaces(chunk, s.brk, i))
  }

  /** The handles of a chunk behind its first */
  function Upward(lo: int, n: nat): (r: seq<int>)
    ensures |r| == if n == 0 then 0 else n - 1
    ensures forall d :: 0 <= d < |r| ==> r[d] == lo + d
    decreases n
  { if n < 2 then [] else [lo] + Upward(lo + 1, n - 1) }

  function ElectStep(s: State, i: nat): State
    requires Known(s, i) && s.thread[i].pc.Elect? && s.thread[i].cur in s.heap
  {
    var cur, item := s.thread[i].cur, s.thread[i].pc.item;
    if s.heap[cur].avail == -1 then
      SetNode(At(s, i, Fill(item)), cur, s.heap[cur].(avail := 0)).(filler := i)
    else At(s, i, Drop(item))
  }

  function DropStep(s: State, i: nat): State
    requires Known(s, i) && s.thread[i].pc.Drop?
  {
    var item := s.thread[i].pc.item;
    At(s, i, Wait).(pool := s.pool + [item], place := s.place[item := Pooled(|s.pool|)])
  }

  /** The return code of a round, by whether there was memory for its data */
  function CodeOf(got: bool): int { if got then 0 else -2 }

  /** `got`: `cm_alloc` had memory for the data. */
  function FillStep(s: State, i: nat, got: bool): State
    requires Known(s, i) && s.thread[i].pc.Fill? && s.thread[i].cur in s.heap
  {
    var cur, item := s.thread[i].cur, s.thread[i].pc.item;
    SetNode(At(s, i, Announce(item, CodeOf(got))), cur,
            s.heap[cur].(next := item, data := if got then Res(s.thread[i].send) else Nothing)).(
      ids := s.ids + [item], starter := s.starter + [i], mem := s.mem + [got], filler := -1, place := s.place[item := Live(|s.ids|)])
  }

  /** The call of thread `i` ends with the code `ret`. */
  function Coded(s: State, i: nat, ret: int): State
    requires Known(s, i)
  { s.(codes := s.codes[i := s.codes[i] + [ret]]) }

  function AnnounceStep(s: State, i: nat): State
    requires Known(s, i) && s.thread[i].pc.Announce? && s.thread[i].cur in s.heap
  {
    var t := s.thread[i];
    var u := if i == s.root then t.(pc := Gather(true, t.pc.item, t.pc.ret)) else t.(key := t.pc.item, pc := Away);
    var s1 := SetNode(s, t.cur, s.heap[t.cur].(avail := 1)).(thread := s.thread[i := u], past := s.past[i := s.past[i] + 1]);
    if i == s.root then s1 else Coded(s1, i, t.pc.ret)
  }

  /** The number of elements to combine: `MIN(count, curitem->count)` */
  function Todo(s: State, i: nat): nat
    requires i < |s.thread| && HasResult(s, i)
  { Min(|s.thread[i].send|, |Vals(s, i)|) }

  /**
   * One atomic operation on element `e`: the addition, or the read of the other
   * two operators; nothing to do if there are no data.
   */
  function ElementStep(s: State, i: nat): State
    requires Known(s, i) && s.thread[i].pc.Element? && s.thread[i].cur in s.heap
  {
    if !HasResult(s, i) then At(s, i, SetKey(-2)) else
    var t, e, vals := s.thread[i], s.thread[i].pc.e, Vals(s, i);
    if e >= Todo(s, i) then At(s, i, SetKey(0))
    else match t.op
      case SUM => SetNode(At(s, i, Element(e + 1)), t.cur, s.heap[t.cur].(data := Res(vals[e := Apply(SUM, vals[e], t.send[e])])))
      case MAX => At(s, i, if t.send[e] <= vals[e] then Element(e + 1) else Swap(e, vals[e]))
      case MIN => At(s, i, if t.send[e] >= vals[e] then Element(e + 1) else Swap(e, vals[e]))
  }

  function SwapStep(s: State, i: nat): State
    requires Known(s, i) && s.thread[i].pc.Swap? && HasResult(s, i)
    requires s.thread[i].pc.e < |s.thread[i].send| && s.thread[i].pc.e < |Vals(s, i)|
  {
    var t, e, vals := s.thread[i], s.thread[i].pc.e, Vals(s, i);
    if vals[e] == t.pc.seen then
      SetNode(At(s, i, Element(e + 1)), t.cur, s.heap[t.cur].(data := Res(vals[e := t.send[e]])))
    else At(s, i, Element(e))
  }

  function SetKeyStep(s: State, i: nat): State
    requires Known(s, i) && s.thread[i].pc.SetKey? && s.thread[i].cur in s.heap
  { s.(thread := s.thread[i := s.thread[i].(key := s.heap[s.thread[i].cur].next, pc := Count(s.thread[i].pc.ret))]) }

  function CountStep(s: State, i: nat): State
    requires Known(s, i) && s.thread[i].pc.Count? && s.thread[i].cur in s.heap
  {
    var cur, ret := s.thread[i].cur, s.thread[i].pc.ret;
    var s1 := SetNode(At(s, i, if i == s.root then Gather(false, NULL, ret) else Away), cur, s.heap[cur].(avail := s.heap[cur].avail + 1)).(
      past := s.past[i := s.past[i] + 1]);
    if i == s.root then s1 else Coded(s1, i, ret)
  }

  /**
   * The root copies the result out, if there is one, frees the data unless
   * they are in its own buffer, and moves `first`.
   */
  function GatherStep(s: State, i: nat): State
    requires Known(s, i) && s.thread[i].pc.Gather? && s.thread[i].cur in s.heap && (s.thread[i].pc.ret == 0 ==> HasResult(s, i))
  {
    var t := s.thread[i];
    var out := if t.pc.ret == 0 then Res(Vals(s, i)[..Todo(s, i)]) else Nothing;
    Coded(SetNode(At(s, i, GiveBack(t.pc.init, t.pc.item)), t.cur, s.heap[t.cur].(data := Nothing)), i, t.pc.ret).(
      first := s.heap[t.cur].next, result := s.result + [out], place := s.place[t.cur := Unlinked])
  }

  function GiveBackStep(s: State, i: nat): State
    requires Known(s, i) && s.thread[i].pc.GiveBack?
  {
    var t := s.thread[i];
    s.(thread := s.thread[i := t.(key := if t.pc.init then t.pc.item else t.key, pc := Away)],
       pool := s.pool + [t.cur], place := s.place[t.cur := Pooled(|s.pool|)])
  }

  function Step(s: State, a: Action): State
    requires Enabled(s, a)
  {
    match a
    case DoEnter(i, send, op) => EnterStep(s, i, send, op)
    case DoTest(i) => TestStep(s, i)
    case DoTake(i) => TakeStep(s, i)
    case DoElect(i) => ElectStep(s, i)
    case DoDrop(i) => DropStep(s, i)
    case DoFill(i, got) => FillStep(s, i, got)
    case DoAnnounce(i) => AnnounceStep(s, i)
    case DoPass(i) => At(s, i, Element(0))
    case DoElement(i) => ElementStep(s, i)
    case DoSwap(i) => SwapStep(s, i)
    case DoSetKey(i) => SetKeyStep(s, i)
    case DoCount(i) => CountStep(s, i)
    case DoGather(i) => GatherStep(s, i)
    case DoGiveBack(i) => GiveBackStep(s, i)
  }

  function FirstPlaces(cache: set<int>): map<int, Place> {
    map h | h in cache :: if h < 2 then Live(0) else Pooled(h - 2)
  }

  /** `tmpi_rdcq_create`: handle 1 is the guard, 2 to `n + 1` are free. */
  function INIT(n: nat, root: nat): State
    requires n >= 2
  {
    State(n, root, Blank(Range(1, n + 2)), n + 2, 1, seq(n, i => Thread(NULL, NULL, [], SUM, Away)), Upward(2, n + 1),
          [1], [], [], [], -1, seq(n, i => 0), seq(n, i => []), [], seq(n, i => []), FirstPlaces(Range(1, n + 2)))
  }

  ghost predicate Next(s: State, s': State) { exists a :: Enabled(s, a) && s' == Step(s, a) }

  /** Any interleaving of the steps of the threads, from the created queue on */
  ghost predicate IsRun(n: nat, root: nat, run: seq<State>) {
    n >= 2 && root < n && run != [] && run[0] == INIT(n, root) && forall t :: 0 <= t < |run| - 1 ==> Next(run[t], run[t + 1])
  }
}
