/** The steps that fill, announce, count and end a round of the reduction queue, and runs. */
module ReduceRounds {
  import opened Counting
  import opened ReduceOps
  import opened Reduce
  import opened ReduceProof
  import opened ReduceSteps

  // ---------- Filling a handle ----------

  /** While a round is being announced nobody is past it, so nobody is in the next one. */
  lemma NoAnnouncer(s: State, i: nat, j: nat)
    requires Inv(s) && i < s.n && j < s.n && s.past[i] == Filled(s)
    ensures !s.thread[j].pc.Announce?
  {
    assert ThreadOk(s, j);
    if s.thread[j].pc.Announce? { AboveNone(s.past, s.past[j]); }
  }

  lemma FillPlaces(s: State, i: nat, got: bool)
    requires Inv(s) && Enabled(s, DoFill(i, got))
    ensures SizesOk(Step(s, DoFill(i, got))) && PlacesOk(Step(s, DoFill(i, got)))
    ensures AtPlace(s, s.thread[i].pc.item, Held(i))
  {
    var s' := Step(s, DoFill(i, got));
    OwnRound(s, i);
    hide ChainOk, ThreadsOk, ResultsOk;
    assert AtPlace(s, s.thread[i].pc.item, Held(i));
    forall h, p | AtPlace(s', h, p) ensures h in s'.place && s'.place[h] == p {
      if p != Live(|s.ids|) { assert AtPlace(s, h, p); }
    }
    forall h | h in s'.place ensures 0 < h < s'.brk && AtPlace(s', h, s'.place[h]) { assert AtPlace(s, h, s.place[h]); }
  }

  /** The new round: only its first thread has contributed. */
  lemma FillData(s: State, i: nat, got: bool)
    requires Inv(s) && Enabled(s, DoFill(i, got)) && SizesOk(Step(s, DoFill(i, got))) && ThreadOk(s, i)
    requires forall j :: 0 <= j < s.n ==> ThreadOk(s, j)
    ensures DataOk(Step(s, DoFill(i, got)), Filled(s), if got then Res(s.thread[i].send) else Nothing)
  {
    var s' := Step(s, DoFill(i, got));
    var m, send := Filled(s), s.thread[i].send;
    hide PlacesOk, ChainOk, ThreadsOk, ResultsOk;
    forall e | 0 <= e < |send| ensures send[e] == Fold(s'.ops[m], Row(s', m, e)) {
      var units := seq(s.n, j => Unit(s.ops[m]));
      FoldUnits(s.ops[m], units);
      FoldUpdate(s.ops[m], units, i, send[e]);
      ApplyLaws(s.ops[m], Unit(s.ops[m]), send[e], send[e]);
      ApplyLaws(s.ops[m], send[e], send[e], send[e]);
      forall j | 0 <= j < s.n && j != i ensures Val(s', j, m, e) == Unit(s.ops[m]) { assert ThreadOk(s, j); }
      assert Row(s', m, e) == units[i := send[e]];
    }
  }

  lemma FillChain(s: State, i: nat, got: bool, k: nat)
    requires Inv(s) && Enabled(s, DoFill(i, got)) && SizesOk(Step(s, DoFill(i, got))) && IsLive(Step(s, DoFill(i, got)), k)
    ensures ChainAt(Step(s, DoFill(i, got)), k)
  {
    var s' := Step(s, DoFill(i, got));
    OwnRound(s, i);
    forall j | 0 <= j < s.n ensures ThreadOk(s, j) { }
    assert AtPlace(s, s.thread[i].pc.item, Held(i));
    if k <= Filled(s) { assert ChainAt(s, k) && AtPlace(s, s.ids[k], Live(k)); }
    NextRound(s);
    hide PlacesOk, ThreadsOk, ResultsOk, ChainOk;
    if k < Filled(s) { DataKept(s, s', k, s.heap[s.ids[k]].data); }
    else if k == Filled(s) { FillData(s, i, got); }
  }

  /** Rounds to come do not change the codes of those that are over. */
  lemma CodesStay(codes: seq<int>, calls: nat, mem: seq<bool>, got: bool)
    requires CodesOk(codes, calls, mem)
    ensures CodesOk(codes, calls, mem + [got])
  { }

  /** A new handle in the chain changes nothing for those who are not there yet. */
  lemma IdsGrow(t: Thread, m: nat, ids: seq<int>, ops: seq<Op>, mine: seq<seq<Int32>>, item: int)
    requires m < |ids| && KeyOk(t, m, ids) && CallOk(t, m, ids, ops, mine)
    ensures KeyOk(t, m, ids + [item]) && CallOk(t, m, ids + [item], ops, mine)
  { }

  lemma FillThread(s: State, i: nat, got: bool, j: nat)
    requires Inv(s) && Known(s, i) && s.thread[i].pc.Fill? && s.thread[i].cur in s.heap && SizesOk(FillStep(s, i, got))
    requires j < s.n && j != i
    ensures ThreadOk(FillStep(s, i, got), j)
  {
    assert ThreadOk(s, i) && ThreadOk(s, j);
    NextRound(s);
    NoAnnouncer(s, i, j);
    CodesStay(s.codes[j], Over(s, j), s.mem, got);
    IdsGrow(s.thread[j], s.past[j], s.ids, s.ops, s.contrib[j], s.thread[i].pc.item);
    hide PlacesOk, ChainOk, ThreadsOk, ResultsOk, AtElementOk, Above, CodesOk, KeyOk, CallOk;
  }

  lemma FillSelf(s: State, i: nat, got: bool)
    requires Inv(s) && Known(s, i) && s.thread[i].pc.Fill? && s.thread[i].cur in s.heap && SizesOk(FillStep(s, i, got))
    requires i == s.root ==> got
    ensures ThreadOk(FillStep(s, i, got), i)
  {
    assert ThreadOk(s, i);
    NextRound(s);
    CodesStay(s.codes[i], Over(s, i), s.mem, got);
    hide PlacesOk, ChainOk, ThreadsOk, ResultsOk, AtElementOk, Above, CodesOk;
  }

  lemma FillOk(s: State, i: nat, got: bool)
    requires Inv(s) && Enabled(s, DoFill(i, got))
    ensures Inv(Step(s, DoFill(i, got)))
  {
    var s' := Step(s, DoFill(i, got));
    FillPlaces(s, i, got);
    hide PlacesOk;
    forall k | 0 <= k <= Filled(s') && IsLive(s', k) ensures ChainAt(s', k) { FillChain(s, i, got, k); }
    forall k | 0 <= k < |s.result| ensures ResultAt(s', k) { ResultStays(s, s', k); }
    forall j | 0 <= j < s.n ensures ThreadOk(s', j) {
      if j == i { FillSelf(s, i, got); } else { FillThread(s, i, got, j); }
    }
  }

  // ---------- Getting past a round ----------

  /** Thread `i`, which has contributed all it has, is counted in `avail` and gets past its round. */
  ghost predicate Counted(s: State, s': State, i: nat) {
    && Known(s, i) && (s.thread[i].pc.Announce? || s.thread[i].pc.Count?) && s.thread[i].cur in s.heap
    && var t := s.thread[i];
    && s'.heap == s.heap[t.cur := s.heap[t.cur].(avail := Above(s.past, s.past[i]) + 1)]
    && |s'.thread| == |s'.codes| == s.n && s' == s.(thread := s.thread[i := s'.thread[i]], past := s.past[i := s.past[i] + 1], heap := s'.heap,
                                                   codes := if i == s.root then s.codes else s.codes[i := s.codes[i] + [t.pc.ret]])
    && (s'.thread[i].pc.Away? || s'.thread[i].pc.Gather?)
  }

  lemma CountedPlaces(s: State, s': State, i: nat)
    requires Inv(s) && Counted(s, s', i)
    ensures SizesOk(s') && PlacesOk(s')
  {
    OwnRound(s, i);
    hide ChainOk, ThreadsOk, ResultsOk;
    forall h, p | AtPlace(s', h, p) ensures h in s'.place && s'.place[h] == p { assert AtPlace(s, h, p); }
    forall h | h in s'.place ensures 0 < h < s'.brk && AtPlace(s', h, s'.place[h]) { assert AtPlace(s, h, s.place[h]); }
  }

  lemma CountedChain(s: State, s': State, i: nat, k: nat)
    requires Inv(s) && Counted(s, s', i) && SizesOk(s') && k <= Filled(s) && IsLive(s, k)
    ensures ChainAt(s', k)
  {
    OwnRound(s, i);
    assert ChainAt(s, k) && AtPlace(s, s.ids[k], Live(k));
    AboveBump(s.past, i, k);
    hide PlacesOk, ThreadsOk, ResultsOk, ChainOk;
    if k < Filled(s) { DataKept(s, s', k, s.heap[s.ids[k]].data); }
  }

  /** Two threads cannot announce the same round, and nobody is counted in a round before it is announced. */
  lemma AnnouncedByOne(s: State, s': State, i: nat, j: nat)
    requires Inv(s) && Counted(s, s', i) && j < s.n && j != i && s.thread[j].pc.Announce?
    ensures s.past[i] != s.past[j]
  {
    assert ThreadOk(s, i) && ThreadOk(s, j);
    hide PlacesOk, ChainOk, ThreadsOk, ResultsOk, KeyOk, CallOk, AtElementOk, Above, CodesOk, RootOk;
  }

  lemma CountedThread(s: State, s': State, i: nat, j: nat)
    requires Inv(s) && Counted(s, s', i) && SizesOk(s') && j < s.n && j != i
    ensures ThreadOk(s', j)
  {
    assert ThreadOk(s, j);
    if s.thread[j].pc.Announce? { AnnouncedByOne(s, s', i, j); }
    AboveBump(s.past, i, s.past[j]);
    hide PlacesOk, ChainOk, ThreadsOk, ResultsOk, KeyOk, CallOk, AtElementOk, Above, CodesOk, RootOk;
  }

  lemma CountedOk(s: State, s': State, i: nat)
    requires Inv(s) && Counted(s, s', i)
    requires SizesOk(s') ==> ThreadOk(s', i)
    ensures Inv(s')
  {
    CountedPlaces(s, s', i);
    hide PlacesOk;
    forall k | 0 <= k <= Filled(s') && IsLive(s', k) ensures ChainAt(s', k) { CountedChain(s, s', i, k); }
    forall k | 0 <= k < |s.result| ensures ResultAt(s', k) { ResultStays(s, s', k); }
    forall j | 0 <= j < s.n && j != i ensures ThreadOk(s', j) { CountedThread(s, s', i, j); }
  }

  lemma AnnounceSelf(s: State, i: nat)
    requires Inv(s) && Enabled(s, DoAnnounce(i))
    ensures Counted(s, AnnounceStep(s, i), i) && (SizesOk(AnnounceStep(s, i)) ==> ThreadOk(AnnounceStep(s, i), i))
  {
    OwnRound(s, i);
    hide PlacesOk, ChainOk, ThreadsOk, ResultsOk, AtElementOk, Above;
  }

  lemma AnnounceOk(s: State, i: nat)
    requires Inv(s) && Enabled(s, DoAnnounce(i))
    ensures Inv(Step(s, DoAnnounce(i)))
  {
    AnnounceSelf(s, i);
    hide Inv, Counted, SizesOk;
    CountedOk(s, AnnounceStep(s, i), i);
  }

  lemma CountSelf(s: State, i: nat)
    requires Inv(s) && Enabled(s, DoCount(i))
    ensures Counted(s, CountStep(s, i), i) && (SizesOk(CountStep(s, i)) ==> ThreadOk(CountStep(s, i), i))
  {
    OwnRound(s, i);
    hide PlacesOk, ChainOk, ThreadsOk, ResultsOk, AtElementOk, Above;
  }

  lemma CountOk(s: State, i: nat)
    requires Inv(s) && Enabled(s, DoCount(i))
    ensures Inv(Step(s, DoCount(i)))
  {
    CountSelf(s, i);
    hide Inv, Counted, SizesOk;
    CountedOk(s, CountStep(s, i), i);
  }

  // ---------- The root takes the result ----------

  /** When the root gets on, every thread has been counted in the round. */
  lemma AllCounted(s: State, i: nat)
    requires Inv(s) && Enabled(s, DoGather(i))
    ensures i == s.root && s.past[i] == |s.result| + 1 && ChainAt(s, |s.result|)
    ensures forall j :: 0 <= j < s.n ==> s.past[j] > |s.result|
  {
    OwnRound(s, i);
    AboveAll(s.past, |s.result|);
  }

  lemma GatherPlaces(s: State, i: nat)
    requires Inv(s) && Enabled(s, DoGather(i))
    ensures SizesOk(Step(s, DoGather(i))) && PlacesOk(Step(s, DoGather(i)))
  {
    var s' := Step(s, DoGather(i));
    OwnRound(s, i);
    AllCounted(s, i);
    hide ChainOk, ThreadsOk, ResultsOk;
    forall h, p | AtPlace(s', h, p) ensures h in s'.place && s'.place[h] == p {
      if p != Unlinked { assert AtPlace(s, h, p); }
    }
    forall h | h in s'.place ensures 0 < h < s'.brk && AtPlace(s', h, s'.place[h]) { assert AtPlace(s, h, s.place[h]); }
  }

  lemma GatherChain(s: State, i: nat, k: nat)
    requires Inv(s) && Enabled(s, DoGather(i)) && SizesOk(Step(s, DoGather(i))) && IsLive(Step(s, DoGather(i)), k)
    ensures ChainAt(Step(s, DoGather(i)), k)
  {
    OwnRound(s, i);
    AllCounted(s, i);
    assert IsLive(s, k) && ChainAt(s, k) && AtPlace(s, s.ids[k], Live(k));
    hide PlacesOk, ThreadsOk, ResultsOk, ChainOk;
    if k < Filled(s) { DataKept(s, Step(s, DoGather(i)), k, s.heap[s.ids[k]].data); }
  }

  lemma GatherRoot(s: State, i: nat)
    requires Inv(s) && Enabled(s, DoGather(i)) && SizesOk(Step(s, DoGather(i)))
    ensures ThreadOk(Step(s, DoGather(i)), i)
  {
    AllCounted(s, i);
    assert ThreadOk(s, i);
    hide PlacesOk, ChainOk, ThreadsOk, ResultsOk, AtElementOk, Above;
  }

  lemma GatherThread(s: State, i: nat, j: nat)
    requires Inv(s) && Enabled(s, DoGather(i)) && SizesOk(Step(s, DoGather(i))) && j < s.n && j != i
    ensures ThreadOk(Step(s, DoGather(i)), j)
  {
    AllCounted(s, i);
    assert ThreadOk(s, j);
    hide PlacesOk, ChainOk, ThreadsOk, ResultsOk, AtElementOk, Above, CodesOk, KeyOk, CallOk;
  }

  lemma GatherResult(s: State, i: nat)
    requires Inv(s) && Enabled(s, DoGather(i)) && SizesOk(Step(s, DoGather(i)))
    ensures ResultAt(Step(s, DoGather(i)), |s.result|)
  {
    var s' := Step(s, DoGather(i));
    var k := |s.result|;
    OwnRound(s, i);
    AllCounted(s, i);
    hide PlacesOk, ChainOk, ResultsOk;
    if s.mem[k] {
      forall e | 0 <= e < |s'.result[k].vals| ensures s'.result[k].vals[e] == Fold(s'.ops[k], Col(s', k, e)) {
        assert Col(s', k, e) == Row(s, k, e);
      }
    }
  }

  lemma GatherOk(s: State, i: nat)
    requires Inv(s) && Enabled(s, DoGather(i))
    ensures Inv(Step(s, DoGather(i)))
  {
    var s' := Step(s, DoGather(i));
    GatherPlaces(s, i);
    hide PlacesOk;
    forall k | 0 <= k <= Filled(s') && IsLive(s', k) ensures ChainAt(s', k) { GatherChain(s, i, k); }
    forall k | 0 <= k < |s.result| ensures ResultAt(s', k) { ResultStays(s, s', k); }
    GatherResult(s, i);
    forall j | 0 <= j < s.n ensures ThreadOk(s', j) {
      if j == i { GatherRoot(s, i); } else { GatherThread(s, i, j); }
    }
  }

  // ---------- Runs ----------

  /** Every step of every thread keeps the invariant. */
  lemma StepKeeps(s: State, a: Action)
    requires Inv(s) && Enabled(s, a)
    ensures Inv(Step(s, a))
  {
    match a
    case DoEnter(i, send, op) => EnterOk(s, i, send, op);
    case DoTest(i) => TestOk(s, i);
    case DoTake(i) => TakeOk(s, i);
    case DoElect(i) => ElectOk(s, i);
    case DoDrop(i) => DropOk(s, i);
    case DoFill(i, got) => FillOk(s, i, got);
    case DoAnnounce(i) => AnnounceOk(s, i);
    case DoPass(i) => PassOk(s, i);
    case DoElement(i) => ElementOk(s, i);
    case DoSwap(i) => SwapOk(s, i);
    case DoSetKey(i) => SetKeyOk(s, i);
    case DoCount(i) => CountOk(s, i);
    case DoGather(i) => GatherOk(s, i);
    case DoGiveBack(i) => GiveBackOk(s, i);
  }

  lemma GroupKept(s: State, a: Action)
    requires Enabled(s, a)
    ensures Step(s, a).n == s.n && Step(s, a).root == s.root
  { }

  lemma NextKeeps(s: State, s': State)
    requires Inv(s) && Next(s, s')
    ensures Inv(s') && s'.n == s.n && s'.root == s.root
  {
    hide Inv, Step, Enabled;
    var a :| Enabled(s, a) && s' == Step(s, a);
    StepKeeps(s, a);
    GroupKept(s, a);
  }

  lemma {:induction false} RunKeeps(n: nat, root: nat, run: seq<State>, t: nat)
    requires IsRun(n, root, run) && t < |run|
    ensures Inv(run[t]) && run[t].n == n && run[t].root == root
  {
    hide Inv, Next;
    if t == 0 {
      InitOk(n, root);
    } else {
      RunKeeps(n, root, run, t - 1);
      assert Next(run[t - 1], run[t - 1 + 1]);
      NextKeeps(run[t - 1], run[t]);
    }
  }
}
