/**
 * `tmpi_Allreduce` on one machine (`mpi_reduce.c`): a reduction to thread 0
 * followed by a broadcast from thread 0, over and over, by threads that drift
 * apart.  The reduction queue and the broadcast queue are the two systems
 * proved elsewhere; here they run side by side, joined by what each thread
 * does between the two calls.
 */
module TmpiAllreduce {
  import opened ReduceOps
  import R = Reduce
  import RP = ReduceProof
  import RR = ReduceRounds
  import B = Bcast
  import BP = BcastProof

  datatype State = State(r: R.State, b: B.State)

  datatype Action = InReduce(ra: R.Action) | InBcast(ba: B.Action)

  /** All threads are there, with thread `j + 1` as receiver `j`. */
  predicate Sized(s: State) {
    && s.r.n == s.b.n >= 2 && s.r.root == 0 && R.Sized(s.r)
    && |s.b.recv| == |s.b.past| == |s.b.got| == s.b.n - 1
  }

  /** Thread `i` is out of the broadcast of its last call. */
  predicate CallOver(s: State, i: nat) requires Sized(s) && i < s.r.n {
    if i == 0 then s.b.root.pc.Out? && |s.b.sent| == |s.r.contrib[0]|
    else s.b.recv[i - 1].pc.Away? && s.b.past[i - 1] == |s.r.contrib[i]|
  }

  /**
   * The reduction of thread 0 is over, and `data` is its result buffer: the
   * result, and what was there behind it; only that for want of memory.
   */
  predicate RootSends(s: State, data: seq<int>) requires Sized(s) {
    var k := |s.b.sent|;
    && s.r.thread[0].pc.Away? && |s.r.contrib[0]| == k + 1 && |data| == |s.r.contrib[0][k]|
    && k < |s.r.result| && Holds(s.r.result[k], data)
  }

  /** A result, if there is one, is what the buffer begins with. */
  predicate Holds(r: R.Shared, data: seq<int>) { r.Res? ==> r.vals <= data }

  /** The reduction of thread `j + 1` is over, and `buf` is its result buffer. */
  predicate ReceiverListens(s: State, j: nat, buf: seq<int>) requires Sized(s) && j < s.r.n - 1 {
    var k := s.b.past[j];
    s.r.thread[j + 1].pc.Away? && |s.r.contrib[j + 1]| == k + 1 && |buf| == |s.r.contrib[j + 1][k]|
  }

  /** A thread starts a reduction when its last call is over, and a broadcast when the reduction of the call is. */
  predicate Enabled(s: State, a: Action) {
    Sized(s) &&
    match a
    case InReduce(ra) => R.Enabled(s.r, ra) && (ra.DoEnter? ==> CallOver(s, ra.i))
    case InBcast(ba) =>
      && B.Enabled(s.b, ba)
      && (ba.RootEnter? ==> RootSends(s, ba.data))
      && (ba.RecvEnter? ==> ReceiverListens(s, ba.j, ba.buf))
  }

  function Step(s: State, a: Action): State
    requires Enabled(s, a)
  {
    match a
    case InReduce(ra) => s.(r := R.Step(s.r, ra))
    case InBcast(ba) => s.(b := B.Step(s.b, ba))
  }

  function INIT(n: nat): State requires n >= 2 { State(R.INIT(n, 0), B.INIT(n)) }

  ghost predicate Next(s: State, s': State) { exists a :: Enabled(s, a) && s' == Step(s, a) }

  /** Any interleaving of the threads, in calls that drift apart as far as the two queues let them */
  ghost predicate IsRun(n: nat, run: seq<State>) {
    n >= 2 && run != [] && run[0] == INIT(n) && forall t :: 0 <= t < |run| - 1 ==> Next(run[t], run[t + 1])
  }

  // ---------- Invariant ----------

  /** The `k`-th payload of the broadcast is the `k`-th result of the reduction. */
  predicate SentOk(s: State) requires Sized(s) {
    && |s.b.sent| <= |s.r.contrib[0]|
    && (forall k :: 0 <= k < |s.b.sent| ==> SentAt(s, k))
  }

  predicate SentAt(s: State, k: nat) requires Sized(s) && k < |s.b.sent| {
    k < |s.r.result| && k < |s.r.contrib[0]| && Holds(s.r.result[k], s.b.sent[k]) && |s.b.sent[k]| == |s.r.contrib[0][k]|
  }

  /** The `k`-th buffer of a receiver has the size of its `k`-th contribution. */
  predicate HeardOk(s: State, j: nat) requires Sized(s) && j < s.r.n - 1 {
    && |s.b.got[j]| <= |s.r.contrib[j + 1]|
    && (forall k :: 0 <= k < |s.b.got[j]| ==> |s.b.got[j][k].before| == |s.r.contrib[j + 1][k]|)
    && (s.b.recv[j].pc.Wait? || s.b.recv[j].pc.Copy? ==>
          s.b.past[j] < |s.r.contrib[j + 1]| && |s.b.recv[j].buf| == |s.r.contrib[j + 1][s.b.past[j]]| && |s.b.got[j]| == s.b.past[j])
  }

  ghost predicate Inv(s: State) {
    && RP.Inv(s.r) && BP.Inv(s.b) && Sized(s) && SentOk(s)
    && (forall j :: 0 <= j < s.r.n - 1 ==> HeardOk(s, j))
  }

  // ---------- Steps ----------

  /** A step of the reduction only adds to what threads contributed and the root got. */
  lemma ReduceGrows(s: R.State, a: R.Action)
    requires R.Enabled(s, a)
    ensures var s' := R.Step(s, a);
            && s'.n == s.n && s'.root == s.root && R.Sized(s') && s.result <= s'.result
            && (forall i :: 0 <= i < s.n ==> s.contrib[i] <= s'.contrib[i])
  {
    hide R.TakeStep, R.ElementStep, R.SwapStep;
    match a
    case DoTake(i) => TakeGrows(s, i);
    case DoElement(i) => ElementGrows(s, i);
    case DoSwap(i) => SwapGrows(s, i);
    case _ =>
  }

  lemma TakeGrows(s: R.State, i: nat)
    requires R.Known(s, i) && R.PoolOk(s)
    ensures var s' := R.TakeStep(s, i);
            s' == s.(thread := s'.thread, heap := s'.heap, brk := s'.brk, pool := s'.pool, place := s'.place) && |s'.thread| == |s.thread|
  {
    hide R.Upward, R.Blank, R.ChunkPlaces;
  }

  lemma ElementGrows(s: R.State, i: nat)
    requires R.Known(s, i) && s.thread[i].pc.Element? && s.thread[i].cur in s.heap
    ensures var s' := R.ElementStep(s, i); s' == s.(thread := s'.thread, heap := s'.heap) && |s'.thread| == |s.thread|
  { }

  lemma SwapGrows(s: R.State, i: nat)
    requires R.Enabled(s, R.DoSwap(i))
    ensures var s' := R.SwapStep(s, i); s' == s.(thread := s'.thread, heap := s'.heap) && |s'.thread| == |s.thread|
  { }

  lemma ReduceStepKeeps(s: State, a: R.Action)
    requires Inv(s) && Enabled(s, InReduce(a))
    ensures Inv(Step(s, InReduce(a)))
  {
    RR.StepKeeps(s.r, a);
    ReduceGrows(s.r, a);
    hide RP.Inv, BP.Inv, R.Step, R.Enabled;
    var s' := Step(s, InReduce(a));
    forall k | 0 <= k < |s'.b.sent| ensures SentAt(s', k) { assert SentAt(s, k); }
    forall j | 0 <= j < s.r.n - 1 ensures HeardOk(s', j) { assert HeardOk(s, j); }
  }

  /** What a step of the broadcast does to what was sent and heard */
  lemma BcastGrows(s: B.State, a: B.Action)
    requires BP.Inv(s) && B.Enabled(s, a)
    ensures var s' := B.Step(s, a);
            && s'.n == s.n && |s'.recv| == |s'.past| == |s'.got| == s.n - 1
            && s'.sent == (if a.RootEnter? then s.sent + [a.data] else s.sent)
            && (forall j :: 0 <= j < s.n - 1 && !(a.RecvCopy? && a.j == j) ==> s'.got[j] == s.got[j])
            && (a.RecvCopy? ==> a.j < s.n - 1 && s'.got[a.j] == s.got[a.j] + [B.Received(s.heap[s.recv[a.j].cur].data, s.recv[a.j].buf)])
  {
    assert BP.SizesOk(s);
    hide BP.Inv, B.ChunkNodes, B.ChunkPlaces, B.SplicePlaces, B.Reversed;
  }

  lemma BcastStances(s: B.State, a: B.Action, j: nat)
    requires BP.SizesOk(s) && B.Enabled(s, a) && j < s.n - 1
    ensures var r, r' := s.recv[j], B.Step(s, a).recv[j];
            (r'.pc.Wait? || r'.pc.Copy?) ==>
              && B.Step(s, a).past[j] == s.past[j]
              && (if a.RecvEnter? && a.j == j then r.pc.Away? && r'.buf == a.buf
                  else (r.pc.Wait? || r.pc.Copy?) && r'.buf == r.buf && !(a.RecvCopy? && a.j == j))
  {
    hide B.ChunkNodes, B.ChunkPlaces, B.SplicePlaces, B.Reversed, B.Received;
  }

  lemma BcastStepKeeps(s: State, a: B.Action)
    requires Inv(s) && Enabled(s, InBcast(a))
    ensures Inv(Step(s, InBcast(a)))
  {
    BP.StepKeeps(s.b, a);
    BcastGrows(s.b, a);
    var s' := Step(s, InBcast(a));
    forall k | 0 <= k < |s'.b.sent| ensures SentAt(s', k) { if k < |s.b.sent| { assert SentAt(s, k); } }
    forall j | 0 <= j < s.r.n - 1 ensures HeardOk(s', j) { HeardKept(s, a, j); }
  }

  lemma HeardKept(s: State, a: B.Action, j: nat)
    requires Inv(s) && Enabled(s, InBcast(a)) && j < s.r.n - 1 && Sized(Step(s, InBcast(a)))
    ensures HeardOk(Step(s, InBcast(a)), j)
  {
    assert HeardOk(s, j);
    assert |s.b.got[j]| == s.b.past[j] + (if s.b.recv[j].pc.SetKey? || s.b.recv[j].pc.Count? then 1 else 0) by { assert BP.RecvOk(s.b, j); }
    BcastGrows(s.b, a);
    BcastStances(s.b, a, j);
    hide RP.Inv, B.Step, BP.PlacesOk, BP.FreeOk, BP.RootOk, BP.ChainOk, BP.RecvsOk, B.Received;
  }

  lemma NextKeeps(s: State, s': State)
    requires Inv(s) && Next(s, s')
    ensures Inv(s')
  {
    hide Inv, R.Step, B.Step, R.Enabled, B.Enabled;
    var a :| Enabled(s, a) && s' == Step(s, a);
    match a
    case InReduce(ra) => ReduceStepKeeps(s, ra);
    case InBcast(ba) => BcastStepKeeps(s, ba);
  }

  lemma InitOk(n: nat)
    requires n >= 2
    ensures Inv(INIT(n))
  {
    RP.InitOk(n, 0);
    BP.InitOk(n);
  }

  lemma {:induction false} RunKeeps(n: nat, run: seq<State>, t: nat)
    requires IsRun(n, run) && t < |run|
    ensures Inv(run[t])
  {
    hide Inv, Next;
    if t == 0 {
      InitOk(n);
    } else {
      RunKeeps(n, run, t - 1);
      assert Next(run[t - 1], run[t - 1 + 1]);
      NextKeeps(run[t - 1], run[t]);
    }
  }

  // ---------- What the callers get ----------

  ghost predicate Reachable(s: State) {
    exists n: nat, run, t: nat :: IsRun(n, run) && t < |run| && run[t] == s
  }

  /** Element `e` of `buf` is the fold of element `e` of all contributions to call `k`, for all `count` elements. */
  ghost predicate IsAllreduce(s: State, k: nat, count: nat, buf: seq<int>)
    requires Sized(s) && k < |s.r.ops| && forall i :: 0 <= i < s.r.n ==> k < |s.r.contrib[i]|
  {
    |buf| == count && forall e :: 0 <= e < count ==> buf[e] == Fold(s.r.ops[k], Column(s.r.n, s.r.contrib, s.r.ops[k], k, e))
  }

  /** The result of the reduction is the fold over the contributions to the same call. */
  lemma RootHas(s: State, k: nat, count: nat)
    requires Inv(s) && k < |s.r.result|
    requires forall i :: 0 <= i < s.r.n && k < |s.r.contrib[i]| ==> |s.r.contrib[i][k]| == count
    ensures k < |s.r.ops| && k < |s.r.mem| && forall i :: 0 <= i < s.r.n ==> k < |s.r.contrib[i]|
    ensures s.r.result[k].Res? <==> s.r.mem[k]
    ensures s.r.mem[k] ==> IsAllreduce(s, k, count, s.r.result[k].vals)
  {
    assert RP.ResultAt(s.r, k);
    forall i | 0 <= i < s.r.n ensures k < |s.r.contrib[i]| { assert RP.ThreadOk(s.r, i); }
    hide BP.Inv, RP.PlacesOk, RP.ChainOk, RP.ResultsOk;
    if s.r.mem[k] {
      var vals := s.r.result[k].vals;
      forall e | 0 <= e < count ensures vals[e] == Fold(s.r.ops[k], Column(s.r.n, s.r.contrib, s.r.ops[k], k, e)) {
        assert RP.Col(s.r, k, e) == Column(s.r.n, s.r.contrib, s.r.ops[k], k, e);
      }
    }
  }

  lemma ReachableInv(s: State)
    requires Reachable(s)
    ensures Inv(s)
  {
    hide Inv;
    var n: nat, run, t: nat :| IsRun(n, run) && t < |run| && run[t] == s;
    RunKeeps(n, run, t);
  }

  /**
   * Thread 0 gets the fold of all contributions of the same call, unless there
   * was no memory for the data of the reduction.
   */
  lemma ThreadZeroGets(s: State, k: nat, count: nat)
    requires Reachable(s) && Sized(s) && k < |s.b.sent|
    requires forall i :: 0 <= i < s.r.n && k < |s.r.contrib[i]| ==> |s.r.contrib[i][k]| == count
    ensures k < |s.r.ops| && k < |s.r.mem| && forall i :: 0 <= i < s.r.n ==> k < |s.r.contrib[i]|
    ensures s.r.mem[k] ==> IsAllreduce(s, k, count, s.b.sent[k])
  {
    ReachableInv(s);
    assert SentAt(s, k);
    hide RP.Inv, BP.Inv;
    RootHas(s, k, count);
  }

  /**
   * Every other thread gets it too, from the broadcast of the same call, unless
   * thread 0 had no memory to broadcast from, which the return code tells.
   */
  lemma OthersGet(s: State, j: nat, k: nat, count: nat)
    requires Reachable(s) && Sized(s) && j < |s.b.got| && k < |s.b.got[j]|
    requires forall i :: 0 <= i < s.r.n && k < |s.r.contrib[i]| ==> |s.r.contrib[i][k]| == count
    ensures k < |s.r.ops| && k < |s.r.mem| && k < |s.b.hist| && forall i :: 0 <= i < s.r.n ==> k < |s.r.contrib[i]|
    ensures s.r.mem[k] && s.b.got[j][k].ret == 0 ==> IsAllreduce(s, k, count, s.b.got[j][k].after)
    ensures s.b.got[j][k].ret == if s.b.hist[k] != B.NoData then 0 else -2
  {
    ReachableInv(s);
    Heard(s, j, k);
    hide RP.Inv, BP.Inv;
    RootHas(s, k, count);
  }

  /** What receiver `j` got in its call `k` comes from what thread 0 sent in its call `k`. */
  lemma Heard(s: State, j: nat, k: nat)
    requires Inv(s) && j < |s.b.got| && k < |s.b.got[j]|
    ensures k < |s.b.hist| && k < |s.b.sent| && SentAt(s, k) && k < |s.r.contrib[j + 1]|
    ensures s.b.got[j][k].ret == if s.b.hist[k] != B.NoData then 0 else -2
    ensures s.b.hist[k] != B.NoData && |s.r.contrib[j + 1][k]| == |s.b.sent[k]| ==> s.b.got[j][k].after == s.b.sent[k]
  {
    assert BP.RecvOk(s.b, j) && HeardOk(s, j) && SentAt(s, k);
    hide RP.Inv, BP.PlacesOk, BP.RootOk, BP.FreeOk, BP.RecvsOk;
  }

  // ---------- The return code ----------

  datatype Code = SUCCESS | ERR_INTERN | ERR_BUFFER

  /** The tests at the end of `tmpi_Allreduce`, with the codes of reduction, network and broadcast */
  function AllreduceCode(ret1: int, ret2: int, ret3: int): Code {
    if ret1 == 0 && ret2 == 0 && ret3 == 0 then SUCCESS
    else if ret2 != 0 then ERR_INTERN
    else if ret1 == -1 || ret2 == -1 then ERR_INTERN
    else if ret1 == -2 || ret2 == -2 then ERR_BUFFER
    else ERR_INTERN
  }

  /** Thread `i` is through its `k`-th `tmpi_Allreduce`, but for the tests at the end. */
  predicate Through(s: State, i: nat, k: nat) requires Sized(s) {
    && i < s.r.n && k < |s.r.codes[i]|
    && if i == 0 then k < |s.b.hist| && k < |s.b.sent| else k < |s.b.got[i - 1]|
  }

  /** Its return code, from the codes of the two calls; that of the broadcast is -2 for a root without memory. */
  function CodeAt(s: State, i: nat, k: nat): Code
    requires Sized(s) && Through(s, i, k)
  {
    AllreduceCode(s.r.codes[i][k], 0, if i > 0 then s.b.got[i - 1][k].ret else if s.b.hist[k] == B.NoData then -2 else 0)
  }

  /** The result buffer of thread `i` after the call: thread 0 sends what it has, the others have what they got. */
  function BufferAt(s: State, i: nat, k: nat): seq<int>
    requires Sized(s) && Through(s, i, k)
  { if i == 0 then s.b.sent[k] else s.b.got[i - 1][k].after }

  /**
   * The return code of the `k`-th call tells exactly what happened, and tells
   * it to every thread alike: want of memory in the reduction is ERR_BUFFER,
   * want of memory in the broadcast ERR_INTERN, and success means that the
   * buffer holds the fold of all contributions to the `k`-th call.
   */
  lemma CodeTells(s: State, i: nat, k: nat, count: nat)
    requires Reachable(s) && Sized(s) && Through(s, i, k)
    requires forall x :: 0 <= x < s.r.n && k < |s.r.contrib[x]| ==> |s.r.contrib[x][k]| == count
    ensures k < |s.r.ops| && k < |s.r.mem| && k < |s.b.hist| && forall x :: 0 <= x < s.r.n ==> k < |s.r.contrib[x]|
    ensures CodeAt(s, i, k) == if !s.r.mem[k] then ERR_BUFFER else if s.b.hist[k] == B.NoData then ERR_INTERN else SUCCESS
    ensures CodeAt(s, i, k) == SUCCESS ==> IsAllreduce(s, k, count, BufferAt(s, i, k))
  {
    ReachableInv(s);
    ReduceCode(s.r, i, k);
    hide Inv;
    if i == 0 { ThreadZeroGets(s, k, count); } else { OthersGet(s, i - 1, k, count); }
  }

  lemma ReduceCode(r: R.State, i: nat, k: nat)
    requires RP.Inv(r) && i < r.n && k < |r.codes[i]|
    ensures k < |r.mem| && r.codes[i][k] == if r.mem[k] then 0 else -2
  {
    assert RP.ThreadOk(r, i);
    hide RP.PlacesOk, RP.ChainOk, RP.ResultsOk, RP.ThreadsOk, RP.KeyOk, RP.CallOk, RP.RoundOk, RP.RootOk;
  }
}
