/**
 * The broadcast queue of one root (`bcast.c`).
 *
 * A queue belongs to one root of one group and is touched by nobody else, so
 * one queue is a whole system: the root, the `n - 1` receivers, the shared
 * handles and the lock-free list of free handles.  Every read or write of
 * shared memory that another thread can notice is one step; a step names the
 * thread that takes it, so a run is any interleaving.
 *
 * Handles are addresses; 0 is the null pointer.  A payload is a sequence of
 * units, bytes or elements alike.  `ids`, `hist`, `sent`, `past`, `got`, `fl`
 * and `place` are history: no branch of a step reads them.
 */
module Bcast {
  import opened Basics
  import opened Counting

  const NULL := 0

  /** What the data pointer of a handle leads to: nothing (`malloc` failed), a payload, or memory given back. */
  datatype Data = NoData | Buf(units: seq<int>) | Freed

  datatype Node = Node(next: int, avail: nat, data: Data)

  /**
   * Where the root stands inside `tmpi_bco_bcast`: before it reads the head of
   * the free list, the successor of that head, before its compare-and-swap,
   * before it allocates a chunk, reads the head to append the chunk to,
   * splices the chunk in, fills the current handle, and makes it available.
   */
  datatype RootPc =
    | Out | Head | Succ(ret: int) | Swap(ret: int, succ: int) | Chunk
    | Tail(item: int) | Splice(item: int) | Fill(item: int) | Publish(item: int)
  {
    /** A new handle is in the root's hands. */
    predicate Has(h: int) { (Tail? || Splice? || Fill? || Publish?) && item == h }
    /** The rest of a new chunk is in the root's hands. */
    predicate HasRest(h: int, n: nat) { (Tail? || Splice?) && item < h < item + n }
  }

  /**
   * Where a receiver stands: before it finds the handle available, copies the
   * data, sets its key, counts itself, and, as the last to leave, before it
   * frees the data and moves `first`, reads the head of the free list, and
   * pushes the handle there.
   */
  datatype RecvPc = Away | Wait | Copy | SetKey(ret: int) | Count(ret: int) | Last(ret: int) | Reread | Push
  {
    predicate Counting() { Wait? || Copy? || SetKey? || Count? }
    predicate Leaving() { Last? || Reread? || Push? }
  }

  datatype Root = Root(key: int, cur: int, data: seq<int>, pc: RootPc)
  datatype Recv = Recv(key: int, cur: int, buf: seq<int>, pc: RecvPc)

  /** The outcome of a receive: the buffer before, the return code, the buffer after. */
  datatype Got = Got(before: seq<int>, ret: int, after: seq<int>)

  /** The place of a handle: in the free list (counted from the bottom), holding round `k`, or in somebody's hands. */
  datatype Place = Free(depth: nat) | Live(k: nat) | Hand | Rest | Leaver(j: nat)

  datatype State = State(
    n: nat, heap: map<int, Node>, brk: int, free: int, first: int, root: Root, recv: seq<Recv>,
    ids: seq<int>, hist: seq<Data>, sent: seq<seq<int>>, past: seq<nat>, got: seq<seq<Got>>,
    fl: seq<int>, place: map<int, Place>)

  /** `memcpy(data, src, MIN(len, curitem->len))` into a buffer of `len` units */
  function CopyInto(buf: seq<int>, src: seq<int>): seq<int> {
    src[..Min(|buf|, |src|)] + buf[Min(|buf|, |src|)..]
  }

  // ---------- Steps ----------

  datatype Action =
    | RootEnter(data: seq<int>) | RootHead | RootSucc | RootSwap | RootChunk | RootTail | RootSplice
    | RootFill(mem: bool) | RootPublish
    | RecvEnter(j: nat, buf: seq<int>) | RecvSee(j: nat) | RecvCopy(j: nat) | RecvSetKey(j: nat)
    | RecvCount(j: nat) | RecvLast(j: nat) | RecvReread(j: nat) | RecvPush(j: nat)

  predicate Ready(s: State, j: nat) {
    j < |s.recv| == |s.past| == |s.got|
  }

  /** The step can be taken: the thread stands there, and the handle it touches exists. */
  predicate Enabled(s: State, a: Action) {
    var r := s.root;
    match a
    case RootEnter(_) => r.pc.Out?
    case RootHead => r.pc.Head?
    case RootSucc => r.pc.Succ? && r.pc.ret in s.heap
    case RootSwap => r.pc.Swap?
    case RootChunk => r.pc.Chunk?
    case RootTail => r.pc.Tail? && r.pc.item + s.n - 1 in s.heap
    case RootSplice => r.pc.Splice? && r.pc.item + s.n - 1 in s.heap
    case RootFill(_) => r.pc.Fill? && r.cur in s.heap && r.pc.item in s.heap
    case RootPublish => r.pc.Publish? && r.cur in s.heap
    case RecvEnter(j, _) => Ready(s, j) && s.recv[j].pc.Away?
    case RecvSee(j) => Ready(s, j) && s.recv[j].pc.Wait? && s.recv[j].cur in s.heap && s.heap[s.recv[j].cur].avail != 0
    case RecvCopy(j) => Ready(s, j) && s.recv[j].pc.Copy? && s.recv[j].cur in s.heap
    case RecvSetKey(j) => Ready(s, j) && s.recv[j].pc.SetKey? && s.recv[j].cur in s.heap
    case RecvCount(j) => Ready(s, j) && s.recv[j].pc.Count? && s.recv[j].cur in s.heap
    case RecvLast(j) => Ready(s, j) && s.recv[j].pc.Last? && s.recv[j].cur in s.heap
    case RecvReread(j) => Ready(s, j) && s.recv[j].pc.Reread? && s.recv[j].cur in s.heap
    case RecvPush(j) => Ready(s, j) && s.recv[j].pc.Push? && s.recv[j].cur in s.heap
  }

  function RootAt(s: State, pc: RootPc): State { s.(root := s.root.(pc := pc)) }
  function RecvAt(s: State, j: nat, pc: RecvPc): State
    requires Ready(s, j)
  { s.(recv := s.recv[j := s.recv[j].(pc := pc)]) }

  /** `curitem`: the thread's own key, or the first handle while it has none */
  function Current(s: State, key: int): int { if key == NULL then s.first else key }

  function RootEnterStep(s: State, data: seq<int>): State {
    s.(root := Root(s.root.key, Current(s, s.root.key), data, Head), sent := s.sent + [data])
  }

  function HeadStep(s: State): State { RootAt(s, if s.free == NULL then Chunk else Succ(s.free)) }

  function SwapStep(s: State): State
    requires s.root.pc.Swap?
  {
    var ret := s.root.pc.ret;
    if s.free == ret then
      RootAt(s, Fill(ret)).(free := s.root.pc.succ, place := s.place[ret := Hand],
                            fl := if s.fl == [] then [] else s.fl[..|s.fl| - 1])
    else RootAt(s, Head)
  }

  /** A fresh chunk: the first handle is the result, the others are linked one after the other. */
  function ChunkNodes(chunk: set<int>, item: int, last: int): map<int, Node> {
    map h | h in chunk :: Node(if item < h < last then h + 1 else NULL, 0, NoData)
  }

  function ChunkPlaces(chunk: set<int>, item: int): map<int, Place> {
    map h | h in chunk :: if h == item then Hand else Rest
  }

  function ChunkStep(s: State): State {
    var chunk := Range(s.brk, s.brk + s.n);
    RootAt(s, Tail(s.brk)).(heap := s.heap + ChunkNodes(chunk, s.brk, s.brk + s.n - 1), brk := s.brk + s.n,
                            place := s.place + ChunkPlaces(chunk, s.brk))
  }

  function TailStep(s: State): State
    requires s.root.pc.Tail? && s.root.pc.item + s.n - 1 in s.heap
  {
    var last := s.root.pc.item + s.n - 1;
    RootAt(s, Splice(s.root.pc.item)).(heap := s.heap[last := s.heap[last].(next := s.free)])
  }

  /** The handles of a chunk behind its first, last one first */
  function Reversed(item: int, n: nat): (r: seq<int>)
    ensures |r| == if n == 0 then 0 else n - 1
    ensures forall i :: 0 <= i < |r| ==> r[i] == item + n - 1 - i
  { if n < 2 then [] else [item + n - 1] + Reversed(item, n - 1) }

  function SplicePlaces(s: State, item: int): map<int, Place> {
    map h | h in s.place :: if item < h < item + s.n then Free(|s.fl| + item + s.n - 1 - h) else s.place[h]
  }

  function SpliceStep(s: State): State
    requires s.root.pc.Splice? && s.root.pc.item + s.n - 1 in s.heap
  {
    var item := s.root.pc.item;
    if s.free == s.heap[item + s.n - 1].next then
      RootAt(s, Fill(item)).(free := item + 1, fl := s.fl + Reversed(item, s.n), place := SplicePlaces(s, item))
    else RootAt(s, Tail(item))
  }

  function FillStep(s: State, mem: bool): State
    requires s.root.pc.Fill? && s.root.cur in s.heap && s.root.pc.item in s.heap
  {
    var item, cur := s.root.pc.item, s.root.cur;
    var h := s.heap[item := s.heap[item].(next := NULL, avail := 0)];
    RootAt(s, Publish(item)).(heap := h[cur := h[cur].(next := item, data := if mem then Buf(s.root.data) else NoData)])
  }

  function PublishStep(s: State): State
    requires s.root.pc.Publish? && s.root.cur in s.heap
  {
    var item, cur := s.root.pc.item, s.root.cur;
    s.(heap := s.heap[cur := s.heap[cur].(avail := 1)], root := s.root.(key := item, pc := Out),
       ids := s.ids + [item], hist := s.hist + [s.heap[cur].data], place := s.place[item := Live(|s.ids|)])
  }

  function EnterStep(s: State, j: nat, buf: seq<int>): State
    requires Ready(s, j)
  {
    s.(recv := s.recv[j := Recv(s.recv[j].key, Current(s, s.recv[j].key), buf, Wait)])
  }

  /** Copy what fits, or report that the root had no memory. */
  function Received(data: Data, buf: seq<int>): Got {
    if data.Buf? then Got(buf, 0, CopyInto(buf, data.units)) else Got(buf, -2, buf)
  }

  function CopyStep(s: State, j: nat): State
    requires Ready(s, j) && s.recv[j].cur in s.heap
  {
    var g := Received(s.heap[s.recv[j].cur].data, s.recv[j].buf);
    RecvAt(s, j, SetKey(g.ret)).(got := s.got[j := s.got[j] + [g]])
  }

  function SetKeyStep(s: State, j: nat): State
    requires Ready(s, j) && s.recv[j].pc.SetKey? && s.recv[j].cur in s.heap
  {
    var r := s.recv[j];
    s.(recv := s.recv[j := r.(key := s.heap[r.cur].next, pc := Count(r.pc.ret))])
  }

  function CountStep(s: State, j: nat): State
    requires Ready(s, j) && s.recv[j].pc.Count? && s.recv[j].cur in s.heap
  {
    var r := s.recv[j];
    var node := s.heap[r.cur];
    var last := node.avail + 1 == s.n;
    RecvAt(s, j, if last then Last(r.pc.ret) else Away).(
      heap := s.heap[r.cur := node.(avail := node.avail + 1)],
      past := s.past[j := s.past[j] + 1],
      place := if last then s.place[r.cur := Leaver(j)] else s.place)
  }

  function LastStep(s: State, j: nat): State
    requires Ready(s, j) && s.recv[j].pc.Last? && s.recv[j].cur in s.heap
  {
    var r := s.recv[j];
    var node := s.heap[r.cur];
    RecvAt(s, j, Reread).(
      heap := if r.pc.ret == 0 then s.heap[r.cur := node.(data := Freed)] else s.heap,
      first := node.next)
  }

  function RereadStep(s: State, j: nat): State
    requires Ready(s, j) && s.recv[j].cur in s.heap
  {
    var cur := s.recv[j].cur;
    RecvAt(s, j, Push).(heap := s.heap[cur := s.heap[cur].(next := s.free)])
  }

  function PushStep(s: State, j: nat): State
    requires Ready(s, j) && s.recv[j].cur in s.heap
  {
    var cur := s.recv[j].cur;
    if s.free == s.heap[cur].next then
      RecvAt(s, j, Away).(free := cur, fl := s.fl + [cur], place := s.place[cur := Free(|s.fl|)])
    else RecvAt(s, j, Reread)
  }

  function Step(s: State, a: Action): State
    requires Enabled(s, a)
  {
    match a
    case RootEnter(data) => RootEnterStep(s, data)
    case RootHead => HeadStep(s)
    case RootSucc => RootAt(s, Swap(s.root.pc.ret, s.heap[s.root.pc.ret].next))
    case RootSwap => SwapStep(s)
    case RootChunk => ChunkStep(s)
    case RootTail => TailStep(s)
    case RootSplice => SpliceStep(s)
    case RootFill(mem) => FillStep(s, mem)
    case RootPublish => PublishStep(s)
    case RecvEnter(j, buf) => EnterStep(s, j, buf)
    case RecvSee(j) => RecvAt(s, j, Copy)
    case RecvCopy(j) => CopyStep(s, j)
    case RecvSetKey(j) => SetKeyStep(s, j)
    case RecvCount(j) => CountStep(s, j)
    case RecvLast(j) => LastStep(s, j)
    case RecvReread(j) => RereadStep(s, j)
    case RecvPush(j) => PushStep(s, j)
  }

  /** `tmpi_bcq_create`: handle 1 is the guard, 2 to `n + 1` are the free list. */
  function INIT(n: nat): State
    requires n >= 2
  {
    State(n, ChunkNodes(Range(1, n + 2), 1, n + 1), n + 2, 2, 1,
          Root(NULL, NULL, [], Out), seq(n - 1, i => Recv(NULL, NULL, [], Away)),
          [1], [], [], seq(n - 1, i => 0), seq(n - 1, i => []), Reversed(1, n + 1), FirstPlaces(Range(1, n + 2), n))
  }

  function FirstPlaces(cache: set<int>, n: nat): map<int, Place> {
    map h | h in cache :: if h == 1 then Live(0) else Free(if h <= n + 1 then n + 1 - h else 0)
  }

  ghost predicate Next(s: State, s': State) { exists a :: Enabled(s, a) && s' == Step(s, a) }

  /** Any interleaving of the steps of the threads, from the created queue on */
  ghost predicate IsRun(n: nat, run: seq<State>) {
    n >= 2 && run != [] && run[0] == INIT(n) && forall t :: 0 <= t < |run| - 1 ==> Next(run[t], run[t + 1])
  }
}
