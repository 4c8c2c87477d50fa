/** Every step of a thread keeps the invariant of the reduction queue. */
module ReduceSteps {
  import opened Counting
  import opened ReduceOps
  import opened Reduce
  import opened ReduceProof

  // ---------- Steps that change only the stance of one thread ----------

  predicate Bare(pc: Pc) { !pc.Elect? && !pc.Drop? && !pc.Fill? && !pc.GiveBack? }

  ghost predicate StanceOnly(s: State, s': State, i: nat) {
    && Known(s, i) && |s'.thread| == |s.thread| && s' == s.(thread := s.thread[i := s'.thread[i]])
    && Bare(s.thread[i].pc) && Bare(s'.thread[i].pc)
  }

  lemma StancePlaces(s: State, s': State, i: nat)
    requires Inv(s) && StanceOnly(s, s', i)
    ensures PlacesOk(s') && SizesOk(s')
  {
    hide ChainOk, ThreadsOk, ResultsOk;
    forall h, p | AtPlace(s', h, p) ensures h in s'.place && s'.place[h] == p { assert AtPlace(s, h, p); }
    forall h | h in s'.place ensures 0 < h < s'.brk && AtPlace(s', h, s'.place[h]) { assert AtPlace(s, h, s.place[h]); }
  }

  lemma OthersStay(s: State, s': State, i: nat, j: nat)
    requires Inv(s) && StanceOnly(s, s', i) && SizesOk(s') && j < s.n && j != i
    ensures ThreadOk(s', j)
  {
    hide PlacesOk, ChainOk, ResultsOk;
    assert ThreadOk(s, j);
  }

  lemma ResultStays(s: State, s': State, k: nat)
    requires Inv(s) && SizesOk(s') && k < |s.result| && k < |s'.result| && s'.result[k] == s.result[k]
    requires s'.n == s.n && s'.root == s.root && s.starter <= s'.starter && s.mem <= s'.mem && s.ops <= s'.ops
    requires forall i :: 0 <= i < s.n ==> s.contrib[i] <= s'.contrib[i]
    ensures ResultAt(s', k)
  {
    assert ResultAt(s, k);
    forall i | 0 <= i < s.n ensures k < |s.contrib[i]| { assert ThreadOk(s, i); }
    if s.mem[k] {
      forall e | 0 <= e < |s.result[k].vals| ensures Col(s', k, e) == Col(s, k, e) { }
    }
  }

  lemma StanceOk(s: State, s': State, i: nat)
    requires Inv(s) && StanceOnly(s, s', i)
    requires SizesOk(s') ==> ThreadOk(s', i)
    requires forall k: nat, e: nat :: k < |s.starter| && s.mem[k] && e < Width(s, k) ==> Val(s', i, k, e) == Val(s, i, k, e)
    ensures Inv(s')
  {
    StancePlaces(s, s', i);
    hide PlacesOk;
    forall j | 0 <= j < s.n ensures ThreadOk(s', j) { if j != i { OthersStay(s, s', i, j); } }
    forall k | 0 <= k < |s.result| ensures ResultAt(s', k) { ResultStays(s, s', k); }
    forall k | 0 <= k <= Filled(s) && IsLive(s', k) ensures ChainAt(s', k) { StanceChain(s, s', i, k); }
  }

  lemma StanceChain(s: State, s': State, i: nat, k: nat)
    requires Inv(s) && StanceOnly(s, s', i) && SizesOk(s') && k <= Filled(s) && IsLive(s, k)
    requires forall k: nat, e: nat :: k < |s.starter| && s.mem[k] && e < Width(s, k) ==> Val(s', i, k, e) == Val(s, i, k, e)
    ensures ChainAt(s', k)
  {
    hide PlacesOk, ThreadsOk, ResultsOk;
    assert IsLive(s, k) && ChainAt(s, k);
    if k < Filled(s) { DataKept(s, s', k, s.heap[s.ids[k]].data); }
  }

  lemma TestOk(s: State, i: nat)
    requires Inv(s) && Enabled(s, DoTest(i))
    ensures Inv(Step(s, DoTest(i)))
  {
    OwnRound(s, i);
    NextRound(s);
    hide PlacesOk, ThreadsOk, ResultsOk, ChainOk, CodesOk, AtElementOk;
    StanceOk(s, Step(s, DoTest(i)), i);
  }

  lemma PassOk(s: State, i: nat)
    requires Inv(s) && Enabled(s, DoPass(i))
    ensures Inv(Step(s, DoPass(i)))
  {
    OwnRound(s, i);
    hide PlacesOk, ThreadsOk, ResultsOk, ChainOk, CodesOk, RootOk;
    StanceOk(s, Step(s, DoPass(i)), i);
  }

  lemma SetKeyOk(s: State, i: nat)
    requires Inv(s) && Enabled(s, DoSetKey(i))
    ensures Inv(Step(s, DoSetKey(i)))
  {
    OwnRound(s, i);
    hide PlacesOk, ThreadsOk, ResultsOk, ChainOk, CodesOk, AtElementOk;
    StanceOk(s, Step(s, DoSetKey(i)), i);
  }

  // ---------- Entering a call ----------

  lemma EnterPlaces(s: State, i: nat, send: seq<Int32>, op: Op)
    requires Inv(s) && Enabled(s, DoEnter(i, send, op))
    ensures var s' := Step(s, DoEnter(i, send, op)); SizesOk(s') && PlacesOk(s')
  {
    var s' := Step(s, DoEnter(i, send, op));
    assert ThreadOk(s, i);
    hide ChainOk, ThreadsOk, ResultsOk;
    forall h, p | AtPlace(s', h, p) ensures h in s'.place && s'.place[h] == p { assert AtPlace(s, h, p); }
    forall h | h in s'.place ensures 0 < h < s'.brk && AtPlace(s', h, s'.place[h]) { assert AtPlace(s, h, s.place[h]); }
  }

  lemma EnterChain(s: State, i: nat, send: seq<Int32>, op: Op, k: nat)
    requires Inv(s) && Enabled(s, DoEnter(i, send, op)) && k <= Filled(s) && IsLive(s, k)
    requires SizesOk(Step(s, DoEnter(i, send, op)))
    ensures ChainAt(Step(s, DoEnter(i, send, op)), k)
  {
    var s' := Step(s, DoEnter(i, send, op));
    assert ThreadOk(s, i) && ChainAt(s, k);
    hide PlacesOk, ThreadsOk, ResultsOk;
    if k < Filled(s) { DataKept(s, s', k, s.heap[s.ids[k]].data); }
  }

  lemma EntersRound(s: State, i: nat, send: seq<Int32>, op: Op)
    requires Inv(s) && Enabled(s, DoEnter(i, send, op)) && SizesOk(Step(s, DoEnter(i, send, op)))
    ensures ThreadOk(Step(s, DoEnter(i, send, op)), i)
  {
    OwnRound(s, i);
    assert s.ids[s.past[i]] != NULL;
    hide PlacesOk, ResultsOk, ThreadsOk;
  }

  lemma EnterThread(s: State, i: nat, send: seq<Int32>, op: Op, j: nat)
    requires Inv(s) && Enabled(s, DoEnter(i, send, op)) && j < s.n && j != i
    requires SizesOk(Step(s, DoEnter(i, send, op)))
    ensures ThreadOk(Step(s, DoEnter(i, send, op)), j)
  {
    assert ThreadOk(s, j) && ThreadOk(s, i);
    hide PlacesOk, ResultsOk, ChainOk, ThreadsOk, KeyOk, CodesOk, Above;
  }

  lemma EnterOk(s: State, i: nat, send: seq<Int32>, op: Op)
    requires Inv(s) && Enabled(s, DoEnter(i, send, op))
    ensures Inv(Step(s, DoEnter(i, send, op)))
  {
    var s' := Step(s, DoEnter(i, send, op));
    EnterPlaces(s, i, send, op);
    hide PlacesOk;
    EntersRound(s, i, send, op);
    forall j | 0 <= j < s.n && j != i ensures ThreadOk(s', j) { EnterThread(s, i, send, op, j); }
    forall k | 0 <= k < |s.result| ensures ResultAt(s', k) { ResultStays(s, s', k); }
    forall k | 0 <= k <= Filled(s) && IsLive(s', k) ensures ChainAt(s', k) { EnterChain(s, i, send, op, k); }
  }

  // ---------- Combining an element ----------

  /** Thread `i` is done with element `e`: the shared element is combined with its own. */
  ghost predicate Combined(s: State, s': State, i: nat, e: nat) {
    && Known(s, i) && HasResult(s, i) && (s.thread[i].pc == Element(e) || (s.thread[i].pc.Swap? && s.thread[i].pc.e == e))
    && e < |Vals(s, i)| && e < |s.thread[i].send|
    && var t := s.thread[i];
    && s'.heap == s.heap[t.cur := s.heap[t.cur].(data := Res(Vals(s, i)[e := Apply(t.op, Vals(s, i)[e], t.send[e])]))]
    && s' == s.(thread := s.thread[i := t.(pc := Element(e + 1))], heap := s'.heap)
  }

  lemma CombinedPlaces(s: State, s': State, i: nat, e: nat)
    requires Inv(s) && Combined(s, s', i, e)
    ensures SizesOk(s') && PlacesOk(s')
  {
    OwnRound(s, i);
    hide ChainOk, ThreadsOk, ResultsOk;
    forall h, p | AtPlace(s', h, p) ensures h in s'.place && s'.place[h] == p { assert AtPlace(s, h, p); }
    forall h | h in s'.place ensures 0 < h < s'.brk && AtPlace(s', h, s'.place[h]) { assert AtPlace(s, h, s.place[h]); }
  }

  lemma CombinedSelf(s: State, s': State, i: nat, e: nat)
    requires Inv(s) && Combined(s, s', i, e) && SizesOk(s')
    ensures ThreadOk(s', i)
  {
    OwnRound(s, i);
    hide PlacesOk, ResultsOk, ChainOk, ThreadsOk, CodesOk, RootOk, Above;
  }

  lemma CombinedThread(s: State, s': State, i: nat, e: nat, j: nat)
    requires Inv(s) && Combined(s, s', i, e) && j < s.n && j != i && SizesOk(s')
    ensures ThreadOk(s', j)
  {
    assert ThreadOk(s, j);
    hide PlacesOk, ResultsOk, ChainOk, ThreadsOk, KeyOk, CallOk, CodesOk, RootOk, AtElementOk, Above;
  }

  lemma CombinedChain(s: State, s': State, i: nat, e: nat, k: nat)
    requires Inv(s) && Combined(s, s', i, e) && SizesOk(s') && k <= Filled(s) && IsLive(s, k)
    ensures ChainAt(s', k)
  {
    OwnRound(s, i);
    var m := s.past[i];
    assert ChainAt(s, k) && AtPlace(s, s.ids[k], Live(k));
    hide PlacesOk, ThreadsOk, ResultsOk;
    if k == m {
      CombinedData(s, s', i, e);
    } else if k < Filled(s) {
      DataKept(s, s', k, s.heap[s.ids[k]].data);
    }
  }

  lemma CombinedData(s: State, s': State, i: nat, e: nat)
    requires Inv(s) && Combined(s, s', i, e) && SizesOk(s') && ThreadOk(s, i) && ChainAt(s, s.past[i])
    ensures DataOk(s', s.past[i], s'.heap[s.thread[i].cur].data)
  {
    hide PlacesOk, ThreadsOk, ResultsOk, ChainOk;
    var m, t := s.past[i], s.thread[i];
    var vals := s'.heap[t.cur].data.vals;
    forall x | 0 <= x < |vals| ensures vals[x] == Fold(s'.ops[m], Row(s', m, x)) {
      if x == e { RowGrows(s, s', i, m, e); } else { RowKept(s, s', m, x); }
    }
  }

  lemma CombinedOk(s: State, s': State, i: nat, e: nat)
    requires Inv(s) && Combined(s, s', i, e)
    ensures Inv(s')
  {
    CombinedPlaces(s, s', i, e);
    hide PlacesOk;
    forall j | 0 <= j < s.n ensures ThreadOk(s', j) {
      if j == i { CombinedSelf(s, s', i, e); } else { CombinedThread(s, s', i, e, j); }
    }
    forall k | 0 <= k < |s.result| ensures ResultAt(s', k) { ResultStays(s, s', k); }
    forall k | 0 <= k <= Filled(s) && IsLive(s', k) ensures ChainAt(s', k) { CombinedChain(s, s', i, e, k); }
  }

  /** There are no data to combine into: the thread goes on with the code for want of memory. */
  lemma ElementNoData(s: State, i: nat)
    requires Inv(s) && Enabled(s, DoElement(i)) && !HasResult(s, i)
    ensures Inv(Step(s, DoElement(i)))
  {
    ElementWidth(s, i);
    hide PlacesOk, ThreadsOk, ResultsOk, ChainOk, AtElementOk, CodesOk, Above;
    StanceOk(s, Step(s, DoElement(i)), i);
  }

  /** No element is left, or the read finds that this one must be swapped in: nothing shared changes. */
  lemma ElementStance(s: State, i: nat)
    requires Inv(s) && Enabled(s, DoElement(i)) && HasResult(s, i)
    requires !ElementStep(s, i).thread[i].pc.Element?
    ensures Inv(ElementStep(s, i))
  {
    ElementWidth(s, i);
    hide PlacesOk, ThreadsOk, ResultsOk, ChainOk, Above, CodesOk, Enabled;
    if s.thread[i].pc.e >= Todo(s, i) { ElementsDone(s, i); } else { ElementRead(s, i); }
  }

  /** The same elements are done: nothing changes in what the thread contributed so far. */
  lemma ValsStay(s: State, s': State, i: nat)
    requires StanceOnly(s, s', i) && forall e: nat :: s'.thread[i].pc.Did(e) == s.thread[i].pc.Did(e)
    ensures forall k: nat, e: nat :: k < |s.ops| ==> Val(s', i, k, e) == Val(s, i, k, e)
  { }

  lemma ElementsDone(s: State, i: nat)
    requires Inv(s) && Known(s, i) && s.thread[i].pc.Element? && HasResult(s, i) && s.thread[i].pc.e >= Todo(s, i)
    requires ThreadOk(s, i) && s.past[i] < |s.starter| && s.mem[s.past[i]] && |Vals(s, i)| == Width(s, s.past[i])
    ensures Inv(At(s, i, SetKey(0)))
  {
    hide PlacesOk, ThreadsOk, ResultsOk, ChainOk, CodesOk, Above;
    StanceOk(s, At(s, i, SetKey(0)), i);
  }

  lemma ElementRead(s: State, i: nat)
    requires Inv(s) && Known(s, i) && s.thread[i].pc.Element? && HasResult(s, i) && s.thread[i].pc.e < Todo(s, i)
    requires ThreadOk(s, i) && s.past[i] < |s.starter| && s.mem[s.past[i]] && |Vals(s, i)| == Width(s, s.past[i])
    requires ElementStep(s, i).thread[i].pc.Swap?
    ensures Inv(ElementStep(s, i))
  {
    hide PlacesOk, ThreadsOk, ResultsOk, ChainOk, CodesOk, Above, ChainAt;
    ValsStay(s, ElementStep(s, i), i);
    hide Val, Did;
    StanceOk(s, ElementStep(s, i), i);
  }

  /** The handle that a thread combines into has the width of the round. */
  lemma ElementWidth(s: State, i: nat)
    requires Inv(s) && Enabled(s, DoElement(i))
    ensures ThreadOk(s, i) && s.past[i] < |s.starter| && (HasResult(s, i) <==> s.mem[s.past[i]])
    ensures HasResult(s, i) ==> |Vals(s, i)| == Width(s, s.past[i])
  {
    OwnRound(s, i);
    hide PlacesOk, ThreadsOk, ResultsOk, ChainOk;
  }

  /** The addition, or a read that finds nothing to improve, is a combination at once. */
  lemma ElementCombines(s: State, i: nat)
    requires Inv(s) && Enabled(s, DoElement(i)) && HasResult(s, i)
    requires ElementStep(s, i).thread[i].pc.Element?
    ensures Combined(s, ElementStep(s, i), i, s.thread[i].pc.e)
  {
    hide Inv;
    var t, e := s.thread[i], s.thread[i].pc.e;
    var vals := Vals(s, i);
    assert vals[e := vals[e]] == vals;
    assert s.heap[t.cur := s.heap[t.cur]] == s.heap;
  }

  lemma ElementOk(s: State, i: nat)
    requires Inv(s) && Enabled(s, DoElement(i))
    ensures Inv(Step(s, DoElement(i)))
  {
    assert Step(s, DoElement(i)) == ElementStep(s, i);
    hide Inv, Step, Combined;
    if !HasResult(s, i) {
      ElementNoData(s, i);
    } else if ElementStep(s, i).thread[i].pc.Element? {
      ElementCombines(s, i);
      CombinedOk(s, ElementStep(s, i), i, s.thread[i].pc.e);
    } else {
      ElementStance(s, i);
    }
  }

  lemma SwapCombines(s: State, i: nat)
    requires Inv(s) && Enabled(s, DoSwap(i)) && Vals(s, i)[s.thread[i].pc.e] == s.thread[i].pc.seen
    ensures Combined(s, Step(s, DoSwap(i)), i, s.thread[i].pc.e)
  {
    OwnRound(s, i);
    hide PlacesOk, ThreadsOk, ResultsOk, ChainOk, ChainAt;
  }

  lemma SwapMisses(s: State, i: nat)
    requires Inv(s) && Enabled(s, DoSwap(i)) && Vals(s, i)[s.thread[i].pc.e] != s.thread[i].pc.seen
    ensures Inv(Step(s, DoSwap(i)))
  {
    OwnRound(s, i);
    hide PlacesOk, ThreadsOk, ResultsOk, ChainOk, ChainAt, CodesOk, Above;
    ValsStay(s, Step(s, DoSwap(i)), i);
    hide Val, Did;
    StanceOk(s, Step(s, DoSwap(i)), i);
  }

  lemma SwapOk(s: State, i: nat)
    requires Inv(s) && Enabled(s, DoSwap(i))
    ensures Inv(Step(s, DoSwap(i)))
  {
    hide Inv, Step, Combined;
    if Vals(s, i)[s.thread[i].pc.e] == s.thread[i].pc.seen {
      SwapCombines(s, i);
      CombinedOk(s, Step(s, DoSwap(i)), i, s.thread[i].pc.e);
    } else {
      SwapMisses(s, i);
    }
  }

  // ---------- Handles taken from the pool and given back ----------

  /** Only thread `i` changed its stance, and no handle that holds a live round changed. */
  ghost predicate OffChain(s: State, s': State, i: nat) {
    && Known(s, i) && |s'.thread| == |s.thread| && s'.brk > 0
    && s' == s.(thread := s.thread[i := s'.thread[i]], heap := s'.heap, brk := s'.brk, pool := s'.pool, place := s'.place)
    && !s.thread[i].pc.Fill? && !s'.thread[i].pc.Fill?
    && (forall h :: h in s.place && h in s.heap && s.place[h].Live? ==> h in s'.heap && s'.heap[h] == s.heap[h])
    && (forall e: nat :: s'.thread[i].pc.Did(e) == s.thread[i].pc.Did(e))
  }

  lemma OffChainAt(s: State, s': State, i: nat, k: nat)
    requires Inv(s) && OffChain(s, s', i) && SizesOk(s') && k <= Filled(s) && IsLive(s, k)
    ensures ChainAt(s', k)
  {
    assert ChainAt(s, k) && AtPlace(s, s.ids[k], Live(k));
    hide PlacesOk, ThreadsOk, ResultsOk;
    if k < Filled(s) { DataKept(s, s', k, s.heap[s.ids[k]].data); }
  }

  lemma OffChainOk(s: State, s': State, i: nat)
    requires Inv(s) && OffChain(s, s', i) && PlacesOk(s')
    requires SizesOk(s') ==> ThreadOk(s', i)
    ensures Inv(s')
  {
    assert SizesOk(s');
    forall k | 0 <= k <= Filled(s) && IsLive(s', k) ensures ChainAt(s', k) { OffChainAt(s, s', i, k); }
    hide PlacesOk, ChainAt;
    forall j | 0 <= j < s.n ensures ThreadOk(s', j) { if j != i { OffChainThread(s, s', i, j); } }
    hide ThreadOk;
    forall k | 0 <= k < |s.result| ensures ResultAt(s', k) { ResultStays(s, s', k); }
  }

  lemma OffChainThread(s: State, s': State, i: nat, j: nat)
    requires Inv(s) && OffChain(s, s', i) && SizesOk(s') && j < s.n && j != i
    ensures ThreadOk(s', j)
  {
    assert ThreadOk(s, j);
    hide PlacesOk, ChainOk, ThreadsOk, ResultsOk, KeyOk, CallOk, CodesOk, AtElementOk, RootOk, Above;
  }

  lemma PoppedPlaces(s: State, i: nat)
    requires Inv(s) && Enabled(s, DoTake(i)) && s.pool != []
    ensures PlacesOk(Step(s, DoTake(i)))
    ensures AtPlace(s, s.pool[|s.pool| - 1], Pooled(|s.pool| - 1))
  {
    var s' := Step(s, DoTake(i));
    var item := s.pool[|s.pool| - 1];
    hide ChainOk, ThreadsOk, ResultsOk;
    assert AtPlace(s, item, Pooled(|s.pool| - 1));
    forall h, p | AtPlace(s', h, p) ensures h in s'.place && s'.place[h] == p {
      if p != Held(i) { assert AtPlace(s, h, p); }
    }
    forall h | h in s'.place ensures 0 < h < s'.brk && AtPlace(s', h, s'.place[h]) { assert AtPlace(s, h, s.place[h]); }
  }

  lemma ChunkPlace(s: State, i: nat, h: int)
    requires Inv(s) && Enabled(s, DoTake(i)) && s.pool == [] && h in Step(s, DoTake(i)).place
    ensures var s' := Step(s, DoTake(i)); 0 < h < s'.brk && AtPlace(s', h, s'.place[h]) && (s'.place[h].Held? ==> s'.heap[h].avail == -1)
  {
    var s' := Step(s, DoTake(i));
    hide ChainOk, ThreadsOk, ResultsOk;
    if h in s.place { assert AtPlace(s, h, s.place[h]); }
    else if h > s.brk { assert s'.pool[h - s.brk - 1] == h; }
  }

  lemma ChunkPlaceBack(s: State, i: nat, h: int, p: Place)
    requires Inv(s) && Enabled(s, DoTake(i)) && s.pool == [] && AtPlace(TakeStep(s, i), h, p)
    ensures h in TakeStep(s, i).place && TakeStep(s, i).place[h] == p
  {
    hide ChainOk, ThreadsOk, ResultsOk;
    var s' := TakeStep(s, i);
    if p.Pooled? { assert s'.pool[p.depth] == s.brk + 1 + p.depth; }
    else if p != Held(i) { assert AtPlace(s, h, p); }
  }

  lemma ChunkPlacesOk(s: State, i: nat)
    requires Inv(s) && Enabled(s, DoTake(i)) && s.pool == []
    ensures PlacesOk(Step(s, DoTake(i)))
  {
    var s' := Step(s, DoTake(i));
    hide ChainOk, ThreadsOk, ResultsOk;
    forall h | h in s'.place ensures 0 < h < s'.brk && AtPlace(s', h, s'.place[h]) && (s'.place[h].Held? ==> s'.heap[h].avail == -1) {
      ChunkPlace(s, i, h);
    }
    forall h, p | AtPlace(s', h, p) ensures h in s'.place && s'.place[h] == p { ChunkPlaceBack(s, i, h, p); }
    hide AtPlace, Upward;
  }

  lemma PopOffChain(s: State, i: nat)
    requires Inv(s) && Enabled(s, DoTake(i)) && s.pool != []
    ensures OffChain(s, Step(s, DoTake(i)), i)
  {
    hide ChainOk, ThreadsOk, ResultsOk;
    assert AtPlace(s, s.pool[|s.pool| - 1], Pooled(|s.pool| - 1));
  }

  lemma ChunkOffChain(s: State, i: nat)
    requires Inv(s) && Enabled(s, DoTake(i)) && s.pool == []
    ensures OffChain(s, Step(s, DoTake(i)), i)
  {
    var s' := Step(s, DoTake(i));
    hide ChainOk, ThreadsOk, ResultsOk, Upward, ChunkPlaces;
    forall h | h in s.heap ensures h in s'.heap && s'.heap[h] == s.heap[h] { assert AtPlace(s, h, s.place[h]); }
    hide AtPlace, PlacesOk, Blank;
  }

  lemma TakeThread(s: State, i: nat)
    requires Inv(s) && Known(s, i) && s.thread[i].pc.Take? && PoolOk(s) && SizesOk(TakeStep(s, i))
    ensures ThreadOk(TakeStep(s, i), i)
  {
    assert ThreadOk(s, i);
    hide PlacesOk, ChainOk, ThreadsOk, ResultsOk, Above, Upward, ChunkPlaces, Blank, CodesOk, AtElementOk;
  }

  lemma TakeOk(s: State, i: nat)
    requires Inv(s) && Enabled(s, DoTake(i))
    ensures Inv(Step(s, DoTake(i)))
  {
    if s.pool != [] {
      PoppedPlaces(s, i);
      PopOffChain(s, i);
    } else {
      ChunkPlacesOk(s, i);
      ChunkOffChain(s, i);
    }
    if SizesOk(Step(s, DoTake(i))) { TakeThread(s, i); }
    hide Inv, PlacesOk, Step;
    OffChainOk(s, Step(s, DoTake(i)), i);
  }

  lemma DropPlaces(s: State, i: nat)
    requires Inv(s) && Enabled(s, DoDrop(i))
    ensures PlacesOk(Step(s, DoDrop(i)))
  {
    var s' := Step(s, DoDrop(i));
    hide ChainOk, ThreadsOk, ResultsOk;
    assert AtPlace(s, s.thread[i].pc.item, Held(i));
    forall h, p | AtPlace(s', h, p) ensures h in s'.place && s'.place[h] == p {
      if p != Pooled(|s.pool|) { assert AtPlace(s, h, p); }
    }
    forall h | h in s'.place ensures 0 < h < s'.brk && AtPlace(s', h, s'.place[h]) { assert AtPlace(s, h, s.place[h]); }
  }

  lemma DropOk(s: State, i: nat)
    requires Inv(s) && Enabled(s, DoDrop(i))
    ensures Inv(Step(s, DoDrop(i)))
  {
    OwnRound(s, i);
    DropPlaces(s, i);
    hide ChainOk, ThreadsOk, ResultsOk;
    OffChainOk(s, Step(s, DoDrop(i)), i);
  }

  lemma GiveBackPlaces(s: State, i: nat)
    requires Inv(s) && Enabled(s, DoGiveBack(i)) && i == s.root
    ensures PlacesOk(Step(s, DoGiveBack(i)))
  {
    var s' := Step(s, DoGiveBack(i));
    hide ChainOk, ThreadsOk, ResultsOk;
    assert AtPlace(s, s.thread[i].cur, Unlinked);
    forall h, p | AtPlace(s', h, p) ensures h in s'.place && s'.place[h] == p {
      if p != Pooled(|s.pool|) { assert AtPlace(s, h, p); }
    }
    forall h | h in s'.place ensures 0 < h < s'.brk && AtPlace(s', h, s'.place[h]) { assert AtPlace(s, h, s.place[h]); }
  }

  lemma GiveBackOk(s: State, i: nat)
    requires Inv(s) && Enabled(s, DoGiveBack(i))
    ensures Inv(Step(s, DoGiveBack(i)))
  {
    OwnRound(s, i);
    GiveBackPlaces(s, i);
    hide ChainOk, ThreadsOk, ResultsOk;
    OffChainOk(s, Step(s, DoGiveBack(i)), i);
  }

  // ---------- The election ----------

  lemma LostPlaces(s: State, i: nat)
    requires Inv(s) && Enabled(s, DoElect(i)) && Step(s, DoElect(i)).thread[i].pc.Drop?
    ensures PlacesOk(Step(s, DoElect(i)))
  {
    var s' := Step(s, DoElect(i));
    hide ChainOk, ThreadsOk, ResultsOk;
    forall h, p | AtPlace(s', h, p) ensures h in s'.place && s'.place[h] == p { assert AtPlace(s, h, p); }
    forall h | h in s'.place ensures 0 < h < s'.brk && AtPlace(s', h, s'.place[h]) { assert AtPlace(s, h, s.place[h]); }
  }

  /** The loser of an election finds it over: the round is filled, or its winner is about to fill it. */
  lemma LostOk(s: State, i: nat)
    requires Inv(s) && Enabled(s, DoElect(i)) && Step(s, DoElect(i)).thread[i].pc.Drop?
    ensures Inv(Step(s, DoElect(i)))
  {
    OwnRound(s, i);
    LostPlaces(s, i);
    hide ChainOk, ThreadsOk, ResultsOk;
    OffChainOk(s, Step(s, DoElect(i)), i);
  }

  lemma WonPlaces(s: State, i: nat)
    requires Inv(s) && Enabled(s, DoElect(i)) && Step(s, DoElect(i)).thread[i].pc.Fill?
    ensures PlacesOk(Step(s, DoElect(i))) && SizesOk(Step(s, DoElect(i)))
    ensures s.past[i] == Filled(s) && s.filler == -1
  {
    var s' := Step(s, DoElect(i));
    OwnRound(s, i);
    hide ChainOk, ThreadsOk, ResultsOk;
    forall h, p | AtPlace(s', h, p) ensures h in s'.place && s'.place[h] == p { assert AtPlace(s, h, p); }
    forall h | h in s'.place ensures 0 < h < s'.brk && AtPlace(s', h, s'.place[h]) { assert AtPlace(s, h, s.place[h]); }
  }

  lemma WonChain(s: State, i: nat, k: nat)
    requires Inv(s) && Enabled(s, DoElect(i)) && Step(s, DoElect(i)).thread[i].pc.Fill?
    requires SizesOk(Step(s, DoElect(i))) && k <= Filled(s) && IsLive(s, k) && s.past[i] == Filled(s)
    ensures ChainAt(Step(s, DoElect(i)), k)
  {
    OwnRound(s, i);
    assert ChainAt(s, k) && AtPlace(s, s.ids[k], Live(k));
    hide PlacesOk, ThreadsOk, ResultsOk;
    if k < Filled(s) { DataKept(s, Step(s, DoElect(i)), k, s.heap[s.ids[k]].data); }
  }

  lemma WonOk(s: State, i: nat)
    requires Inv(s) && Enabled(s, DoElect(i)) && Step(s, DoElect(i)).thread[i].pc.Fill?
    ensures Inv(Step(s, DoElect(i)))
  {
    var s' := Step(s, DoElect(i));
    OwnRound(s, i);
    WonPlaces(s, i);
    hide PlacesOk;
    forall k | 0 <= k <= Filled(s) && IsLive(s', k) ensures ChainAt(s', k) { WonChain(s, i, k); }
    forall k | 0 <= k < |s.result| ensures ResultAt(s', k) { ResultStays(s, s', k); }
    hide ChainAt, ResultAt;
    forall j | 0 <= j < s.n ensures ThreadOk(s', j) { WonThread(s, i, j); }
  }

  lemma WonThread(s: State, i: nat, j: nat)
    requires Inv(s) && Enabled(s, DoElect(i)) && Step(s, DoElect(i)).thread[i].pc.Fill? && j < s.n
    requires SizesOk(Step(s, DoElect(i))) && s.past[i] == Filled(s) && s.filler == -1
    ensures ThreadOk(Step(s, DoElect(i)), j)
  {
    assert ThreadOk(s, j);
    hide PlacesOk, ChainOk, ThreadsOk, ResultsOk, AtElementOk, CodesOk, Above;
  }

  lemma ElectOk(s: State, i: nat)
    requires Inv(s) && Enabled(s, DoElect(i))
    ensures Inv(Step(s, DoElect(i)))
  {
    hide Inv;
    if Step(s, DoElect(i)).thread[i].pc.Fill? { WonOk(s, i); } else { LostOk(s, i); }
  }
}
