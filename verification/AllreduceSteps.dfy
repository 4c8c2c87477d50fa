/** Every step of a thread keeps the invariant of the double-buffered allreduce. */
module AllreduceSteps {
  import opened Counting
  import opened ReduceOps
  import opened Allreduce
  import opened AllreduceProof

  // ---------- Frames ----------

  /** History only grows. */
  ghost predicate Grows(s: State, s': State) {
    && Sized(s) && Sized(s') && s'.n == s.n && s.width <= s'.width && s.mem <= s'.mem && s.ops <= s'.ops
    && (forall i :: 0 <= i < s.n ==> s.contrib[i] <= s'.contrib[i] && s.past[i] <= s'.past[i])
  }

  lemma AboveGrows(s: State, s': State, k: nat)
    requires Grows(s, s') && Above(s.past, k) == s.n
    ensures Above(s'.past, k) == s.n
  {
    AboveAll(s.past, k);
    AboveAll(s'.past, k);
  }

  lemma ResultStays(s: State, s': State, i: nat, k: nat)
    requires Inv(s) && SizesOk(s') && Grows(s, s') && i < s.n && k < |s.result[i]| && k < |s'.result[i]|
    requires s'.result[i][k] == s.result[i][k]
    ensures ResultAt(s', i, k)
  {
    assert ResultAt(s, i, k);
    AboveGrows(s, s', k);
    ColStays(s, s', k);
  }

  lemma ResultsStay(s: State, s': State)
    requires Inv(s) && SizesOk(s') && Grows(s, s') && s'.result == s.result
    ensures ResultsOk(s')
  {
    forall j, k | 0 <= j < s.n && 0 <= k < |s'.result[j]| ensures ResultAt(s', j, k) { ResultStays(s, s', j, k); }
  }

  /** Once all are counted in a round, nothing that it is about changes. */
  lemma ColStays(s: State, s': State, k: nat)
    requires Inv(s) && Grows(s, s') && Above(s.past, k) == s.n && k < |s.ops|
    ensures forall e: nat :: Col(s', k, e) == Col(s, k, e)
  {
    AboveAll(s.past, k);
    forall i | 0 <= i < s.n ensures k < |s.contrib[i]| && s'.contrib[i][k] == s.contrib[i][k] { assert ThreadOk(s, i); }
  }

  /** The data of a round stay right if no part of it changed. */
  lemma DataKept(s: State, s': State, k: nat, data: Shared)
    requires SizesOk(s) && SizesOk(s') && s'.n == s.n && DataOk(s, k, data)
    requires s.width <= s'.width && s.mem <= s'.mem && s.ops <= s'.ops
    requires forall e: nat, i :: s.mem[k] && e < s.width[k] && 0 <= i < s.n ==> Val(s', i, k, e) == Val(s, i, k, e)
    ensures DataOk(s', k, data)
  {
    if data.Res? {
      forall e | 0 <= e < |data.vals| ensures data.vals[e] == Fold(s'.ops[k], Row(s', k, e)) {
        assert Row(s', k, e) == Row(s, k, e);
      }
    }
  }

  // ---------- Steps that change only the stance of one thread ----------

  ghost predicate StanceOnly(s: State, s': State, i: nat) {
    && Known(s, i) && |s'.thread| == |s.thread| && s' == s.(thread := s.thread[i := s'.thread[i]])
    && s'.thread[i].sub == s.thread[i].sub && !s.thread[i].pc.Clear? && !s.thread[i].pc.Reopen?
  }

  lemma StanceOk(s: State, s': State, i: nat)
    requires Inv(s) && StanceOnly(s, s', i)
    requires SizesOk(s') ==> ThreadOk(s', i)
    requires forall k: nat, e: nat :: k < |s.width| && s.mem[k] && e < s.width[k] && k < |s.ops| ==> Val(s', i, k, e) == Val(s, i, k, e)
    ensures Inv(s')
  {
    assert SizesOk(s');
    forall j | 0 <= j < s.n ensures ThreadOk(s', j) { if j != i { StanceThread(s, s', i, j); } }
    ResultsStay(s, s');
    hide ResultsOk, ResultAt, ThreadOk;
    StanceSub(s, s', i, Now(s));
    if Now(s) > 0 { StanceSub(s, s', i, Now(s) - 1); }
  }

  lemma StanceThread(s: State, s': State, i: nat, j: nat)
    requires Inv(s) && StanceOnly(s, s', i) && SizesOk(s') && j < s.n && j != i
    ensures ThreadOk(s', j)
  {
    assert ThreadOk(s, j);
    hide RoundsOk, ThreadsOk, ResultsOk, StageTie, NumbersOk, RetOk, CodesOk, AtElementOk, Above;
  }

  lemma StanceSub(s: State, s': State, i: nat, k: nat)
    requires Inv(s) && StanceOnly(s, s', i) && SizesOk(s') && k < |s.stage| && SubOk(s, k, s.sub[SubOf(k)])
    requires forall k: nat, e: nat :: k < |s.width| && s.mem[k] && e < s.width[k] && k < |s.ops| ==> Val(s', i, k, e) == Val(s, i, k, e)
    ensures SubOk(s', k, s'.sub[SubOf(k)])
  {
    hide ThreadsOk, ResultsOk, RoundsOk;
    if s.stage[k].Filled? || s.stage[k].Running? { DataKept(s, s', k, s.sub[SubOf(k)].data); }
  }

  lemma TestOk(s: State, i: nat)
    requires Inv(s) && Enabled(s, DoTest(i))
    ensures Inv(Step(s, DoTest(i)))
  {
    NotAllLeft(s, i);
    hide RoundsOk, ThreadsOk, ResultsOk;
    StanceOk(s, Step(s, DoTest(i)), i);
  }

  /** The round of a thread that has not left it is not being cleared. */
  lemma NotAllLeft(s: State, i: nat)
    requires Inv(s) && i < s.n && !s.thread[i].pc.Away? && !s.thread[i].pc.Leaving()
    ensures ThreadOk(s, i) && Round(s, i) < |s.stage| && SubOk(s, Round(s, i), Mine(s, i))
    ensures Above(s.left, Round(s, i)) < s.n
  {
    assert ThreadOk(s, i);
    AboveAll(s.left, Round(s, i));
  }

  lemma PassOk(s: State, i: nat)
    requires Inv(s) && Enabled(s, DoPass(i))
    ensures Inv(Step(s, DoPass(i)))
  {
    NotAllLeft(s, i);
    AboveAll(s.past, Round(s, i));
    hide RoundsOk, ThreadsOk, ResultsOk, DataOk;
    StanceOk(s, Step(s, DoPass(i)), i);
  }

  lemma GatherOk(s: State, i: nat)
    requires Inv(s) && Enabled(s, DoGather(i))
    ensures Inv(Step(s, DoGather(i)))
  {
    NotAllLeft(s, i);
    hide RoundsOk, ThreadsOk, ResultsOk, DataOk;
    StanceOk(s, Step(s, DoGather(i)), i);
  }

  lemma CheckOk(s: State, i: nat)
    requires Inv(s) && Enabled(s, DoCheck(i))
    ensures Inv(Step(s, DoCheck(i)))
  {
    assert ThreadOk(s, i);
    hide RoundsOk, ThreadsOk, ResultsOk;
    StanceOk(s, Step(s, DoCheck(i)), i);
  }

  lemma EnterOk(s: State, i: nat, send: seq<Int32>, op: Op)
    requires Inv(s) && Enabled(s, DoEnter(i, send, op))
    ensures Inv(Step(s, DoEnter(i, send, op)))
  {
    var s' := Step(s, DoEnter(i, send, op));
    var k := |s.contrib[i]|;
    assert ThreadOk(s, i);
    assert SizesOk(s');
    EntersRound(s, i, send, op);
    forall j | 0 <= j < s.n && j != i ensures ThreadOk(s', j) { EnterThread(s, i, send, op, j); }
    ResultsStay(s, s');
    hide ThreadOk, ResultsOk, ResultAt;
    EnterSub(s, i, send, op, Now(s));
    if Now(s) > 0 { EnterSub(s, i, send, op, Now(s) - 1); }
  }

  lemma EntersRound(s: State, i: nat, send: seq<Int32>, op: Op)
    requires Inv(s) && Enabled(s, DoEnter(i, send, op)) && SizesOk(Step(s, DoEnter(i, send, op)))
    ensures ThreadOk(Step(s, DoEnter(i, send, op)), i)
  {
    assert ThreadOk(s, i);
    AboveAll(s.left, Now(s));
    assert SubOk(s, Now(s), s.sub[SubOf(Now(s))]);
    hide RoundsOk, ThreadsOk, ResultsOk, DataOk;
  }

  lemma EnterThread(s: State, i: nat, send: seq<Int32>, op: Op, j: nat)
    requires Inv(s) && Enabled(s, DoEnter(i, send, op)) && SizesOk(Step(s, DoEnter(i, send, op))) && j < s.n && j != i
    ensures ThreadOk(Step(s, DoEnter(i, send, op)), j)
  {
    assert ThreadOk(s, i) && ThreadOk(s, j);
    hide RoundsOk, ThreadsOk, ResultsOk, DataOk, SubOk;
  }

  lemma EnterSub(s: State, i: nat, send: seq<Int32>, op: Op, k: nat)
    requires Inv(s) && Enabled(s, DoEnter(i, send, op)) && k < |s.stage| && SubOk(s, k, s.sub[SubOf(k)])
    requires SizesOk(Step(s, DoEnter(i, send, op)))
    ensures SubOk(Step(s, DoEnter(i, send, op)), k, s.sub[SubOf(k)])
  {
    assert ThreadOk(s, i);
    hide ThreadsOk, ResultsOk, RoundsOk;
    if s.stage[k].Filled? || s.stage[k].Running? { DataKept(s, Step(s, DoEnter(i, send, op)), k, s.sub[SubOf(k)].data); }
  }

  // ---------- The first thread of a round ----------

  lemma OtherRound(s: State, i: nat)
    requires Inv(s) && i < s.n && !s.thread[i].pc.Away? && s.thread[i].pc.Uncounted() && Now(s) > 0
    ensures SubOf(Now(s) - 1) != s.thread[i].sub == SubOf(Now(s))
  {
    assert ThreadOk(s, i);
  }

  lemma LostOk(s: State, i: nat)
    requires Inv(s) && Enabled(s, DoElect(i)) && Mine(s, i).avail != -1
    ensures Inv(Step(s, DoElect(i)))
  {
    NotAllLeft(s, i);
    hide RoundsOk, ThreadsOk, ResultsOk, DataOk;
    StanceOk(s, Step(s, DoElect(i)), i);
  }

  lemma ElectOk(s: State, i: nat)
    requires Inv(s) && Enabled(s, DoElect(i))
    ensures Inv(Step(s, DoElect(i)))
  {
    hide Inv, Step;
    if Mine(s, i).avail == -1 { WonOk(s, i); } else { LostOk(s, i); }
  }

  lemma WonOk(s: State, i: nat)
    requires Inv(s) && Enabled(s, DoElect(i)) && Mine(s, i).avail == -1
    ensures Inv(Step(s, DoElect(i)))
  {
    NotAllLeft(s, i);
    var s' := Step(s, DoElect(i));
    assert s.stage[Now(s)].Open?;
    forall j | 0 <= j < s.n ensures ThreadOk(s', j) { WonThread(s, i, j); }
    ResultsStay(s, s');
    hide ResultsOk, ResultAt, ThreadOk, DataOk;
    if Now(s) > 0 {
      OtherRound(s, i);
      WonOther(s, i);
    }
  }

  lemma WonThread(s: State, i: nat, j: nat)
    requires Inv(s) && Known(s, i) && s.thread[i].pc.Elect? && Mine(s, i).avail == -1 && SizesOk(ElectStep(s, i)) && j < s.n
    requires Round(s, i) == Now(s) && s.stage[Now(s)].Open?
    ensures ThreadOk(ElectStep(s, i), j)
  {
    assert ThreadOk(s, i) && ThreadOk(s, j);
    hide RoundsOk, ThreadsOk, ResultsOk, RetOk, CodesOk, AtElementOk, Above;
    assert j == i ==> RetOk(Pc.Fill, s.thread[i].ret, Now(s), s.mem) by { RetFill(s.thread[i].ret, Now(s), s.mem); }
  }

  lemma RetFill(ret: int, k: nat, mem: seq<bool>)
    ensures RetOk(Pc.Fill, ret, k, mem)
  { }

  lemma WonOther(s: State, i: nat)
    requires Inv(s) && Enabled(s, DoElect(i)) && Mine(s, i).avail == -1 && Now(s) > 0 && SizesOk(Step(s, DoElect(i)))
    requires SubOf(Now(s) - 1) != s.thread[i].sub && Round(s, i) == Now(s) && s.stage[Now(s)].Open?
    ensures SubOk(Step(s, DoElect(i)), Now(s) - 1, Step(s, DoElect(i)).sub[SubOf(Now(s) - 1)])
  {
    var s', k := Step(s, DoElect(i)), Now(s) - 1;
    hide ThreadsOk, ResultsOk;
    if s.stage[k].Running? { DataKept(s, s', k, s.sub[SubOf(k)].data); }
  }

  /** Rounds to come do not change the codes of those that are over. */
  lemma CodesStay(t: Thread, k: nat, codes: seq<int>, calls: nat, mem: seq<bool>, got: bool)
    requires CodesOk(codes, calls, mem) && RetOk(t.pc, t.ret, k, mem)
    ensures CodesOk(codes, calls, mem + [got]) && RetOk(t.pc, t.ret, k, mem + [got])
  { }

  /** Nobody else has come as far as the data of the new round. */
  lemma FillOthers(s: State, i: nat, j: nat)
    requires Inv(s) && Known(s, i) && s.thread[i].pc.Fill? && j < s.n && j != i
    ensures s.past[j] <= Now(s) && !(s.past[j] == Now(s) && exists e: nat :: s.thread[j].pc.Did(e))
    ensures !s.thread[j].pc.Away? && |s.contrib[j]| - 1 == Now(s) ==> s.stage[Now(s)] == Elected(i) && StageTie(s.thread[j].pc, j, Elected(i))
  {
    assert ThreadOk(s, i) && ThreadOk(s, j);
    hide RoundsOk, ThreadsOk, ResultsOk, CodesOk, RetOk, AtElementOk, Above;
  }

  lemma FillThread(s: State, i: nat, got: bool, j: nat)
    requires Inv(s) && Known(s, i) && s.thread[i].pc.Fill? && SizesOk(FillStep(s, i, got)) && j < s.n && j != i
    ensures ThreadOk(FillStep(s, i, got), j)
  {
    assert ThreadOk(s, i) && ThreadOk(s, j);
    FillOthers(s, i, j);
    if s.thread[j].pc.Away? {
      CodesStay(s.thread[j], |s.mem|, s.codes[j], |s.result[j]|, s.mem, got);
    } else {
      CodesStay(s.thread[j], |s.contrib[j]| - 1, s.codes[j], |s.result[j]|, s.mem, got);
    }
    hide RoundsOk, ThreadsOk, ResultsOk, DataOk, SubOk, CodesOk, RetOk, Above;
  }

  lemma FillSelf(s: State, i: nat, got: bool)
    requires Inv(s) && Known(s, i) && s.thread[i].pc.Fill? && SizesOk(FillStep(s, i, got))
    ensures ThreadOk(FillStep(s, i, got), i)
  {
    NotAllLeft(s, i);
    CodesStay(s.thread[i], |s.contrib[i]| - 1, s.codes[i], |s.result[i]|, s.mem, got);
    hide RoundsOk, ThreadsOk, ResultsOk, DataOk, CodesOk, Above;
  }

  lemma FillSizes(s: State, i: nat, got: bool)
    requires Inv(s) && Enabled(s, DoFill(i, got))
    ensures ThreadOk(s, i) && Round(s, i) == Now(s) && SizesOk(Step(s, DoFill(i, got)))
  {
    NotAllLeft(s, i);
    hide RoundsOk, ThreadsOk, ResultsOk, DataOk;
  }

  lemma FillRounds(s: State, i: nat, got: bool)
    requires Inv(s) && Enabled(s, DoFill(i, got)) && SizesOk(Step(s, DoFill(i, got)))
    requires DataOk(Step(s, DoFill(i, got)), Now(s), if got then Res(s.thread[i].send) else Nothing)
    ensures RoundsOk(Step(s, DoFill(i, got)))
  {
    NotAllLeft(s, i);
    if Now(s) > 0 {
      OtherRound(s, i);
      FillOther(s, i, got);
    }
    hide ThreadsOk, ResultsOk, DataOk, Above;
  }

  lemma FillOk(s: State, i: nat, got: bool)
    requires Inv(s) && Enabled(s, DoFill(i, got))
    ensures Inv(Step(s, DoFill(i, got)))
  {
    var s' := Step(s, DoFill(i, got));
    FillSizes(s, i, got);
    forall j | 0 <= j < s.n ensures ThreadOk(s', j) { if j == i { FillSelf(s, i, got); } else { FillThread(s, i, got, j); } }
    forall j | 0 <= j < s.n && j != i { FillOthers(s, i, j); }
    FillData(s, i, got);
    FillRounds(s, i, got);
    ResultsStay(s, s');
    hide ThreadOk, DataOk, RoundsOk, ResultsOk;
  }

  /** The new round: only its first thread has contributed. */
  lemma FillData(s: State, i: nat, got: bool)
    requires Inv(s) && Enabled(s, DoFill(i, got)) && SizesOk(Step(s, DoFill(i, got))) && ThreadOk(s, i)
    requires forall j :: 0 <= j < s.n && j != i ==> s.past[j] <= Now(s) && !(s.past[j] == Now(s) && exists e: nat :: s.thread[j].pc.Did(e))
    ensures DataOk(Step(s, DoFill(i, got)), Now(s), if got then Res(s.thread[i].send) else Nothing)
  {
    var s' := Step(s, DoFill(i, got));
    var m, send := Now(s), s.thread[i].send;
    hide RoundsOk, ThreadsOk, ResultsOk;
    forall e | 0 <= e < |send| ensures send[e] == Fold(s'.ops[m], Row(s', m, e)) {
      var units := seq(s.n, j => Unit(s.ops[m]));
      FoldUnits(s.ops[m], units);
      FoldUpdate(s.ops[m], units, i, send[e]);
      ApplyLaws(s.ops[m], Unit(s.ops[m]), send[e], send[e]);
      ApplyLaws(s.ops[m], send[e], send[e], send[e]);
      forall j | 0 <= j < s.n && j != i ensures Val(s', j, m, e) == Unit(s.ops[m]) { }
      assert Row(s', m, e) == units[i := send[e]];
    }
  }

  lemma FillOther(s: State, i: nat, got: bool)
    requires Inv(s) && Enabled(s, DoFill(i, got)) && Now(s) > 0 && SizesOk(Step(s, DoFill(i, got))) && ThreadOk(s, i)
    requires SubOf(Now(s) - 1) != s.thread[i].sub
    ensures SubOk(Step(s, DoFill(i, got)), Now(s) - 1, Step(s, DoFill(i, got)).sub[SubOf(Now(s) - 1)])
  {
    var s', k := Step(s, DoFill(i, got)), Now(s) - 1;
    hide ThreadsOk, ResultsOk;
    if s.stage[k].Running? { DataKept(s, s', k, s.sub[SubOf(k)].data); }
  }

  // ---------- Getting counted ----------

  /** Thread `i`, which has contributed all it has, is counted in `avail`. */
  ghost predicate Counted(s: State, s': State, i: nat) {
    && Known(s, i) && (s.thread[i].pc.Announce? || s.thread[i].pc.Count?)
    && |s.contrib[i]| > 0 && Round(s, i) < |s.stage|
    && s' == At(s, i, Gather).(sub := s.sub[s.thread[i].sub := Mine(s, i).(avail := Above(s.past, Round(s, i)) + 1)],
                               stage := s.stage[Round(s, i) := Running], past := s.past[i := s.past[i] + 1])
  }

  lemma CountedOk(s: State, s': State, i: nat)
    requires Inv(s) && Counted(s, s', i)
    ensures Inv(s')
  {
    assert SizesOk(s') by { NotAllLeft(s, i); }
    forall j | 0 <= j < s.n ensures ThreadOk(s', j) {
      if j == i { CountedSelf(s, s', i); } else { CountedThread(s, s', i, j); }
    }
    ResultsStay(s, s');
    CountedRounds(s, s', i);
    hide ThreadOk, ResultsOk, RoundsOk;
  }

  lemma CountedRounds(s: State, s': State, i: nat)
    requires Inv(s) && Counted(s, s', i) && SizesOk(s')
    ensures RoundsOk(s')
  {
    NotAllLeft(s, i);
    CountedSub(s, s', i);
    hide ThreadsOk, ResultsOk, ThreadOk, DataOk, Above;
    if Now(s) > 0 {
      OtherRound(s, i);
      CountedOther(s, s', i);
    }
  }

  lemma CountedSub(s: State, s': State, i: nat)
    requires Inv(s) && Counted(s, s', i) && SizesOk(s')
    ensures Round(s, i) == Now(s) && s.thread[i].sub == SubOf(Now(s)) && SubOk(s', Now(s), s'.sub[SubOf(Now(s))])
  {
    NotAllLeft(s, i);
    var c := Now(s);
    AboveBump(s.past, i, c);
    hide ThreadsOk, ResultsOk, RoundsOk, SubOf, CodesOk, RetOk;
    DataKept(s, s', c, s.sub[SubOf(c)].data);
    hide DataOk, Above;
  }

  lemma CountedSelf(s: State, s': State, i: nat)
    requires Inv(s) && Counted(s, s', i) && SizesOk(s')
    ensures ThreadOk(s', i)
  {
    NotAllLeft(s, i);
    hide RoundsOk, ThreadsOk, ResultsOk, DataOk, SubOk, AtElementOk;
  }

  lemma CountedThread(s: State, s': State, i: nat, j: nat)
    requires Inv(s) && Counted(s, s', i) && SizesOk(s') && j < s.n && j != i
    ensures ThreadOk(s', j)
  {
    assert ThreadOk(s, i) && ThreadOk(s, j);
    hide RoundsOk, ThreadsOk, ResultsOk, DataOk, SubOk, AtElementOk, NumbersOk, RetOk, CodesOk, Above;
    if !s.thread[j].pc.Away? {
      var k := |s.contrib[j]| - 1;
      if k == Round(s, i) { TieOfCounted(s.thread[j].pc, i, j, s.stage[k]); }
      if Above(s.past, k) == s.n { AboveGrows(s, s', k); }
      hide StageTie;
      assert s'.stage[k] == if k == Round(s, i) then Running else s.stage[k];
    }
  }

  /** That thread `i` is counted makes no difference to another thread of the round. */
  lemma TieOfCounted(pc: Pc, i: nat, j: nat, g: Stage)
    requires StageTie(pc, j, g) && i != j && (g == Filled(i) || g.Running?)
    ensures StageTie(pc, j, Running)
  { }

  lemma CountedOther(s: State, s': State, i: nat)
    requires Inv(s) && Counted(s, s', i) && Now(s) > 0 && SizesOk(s') && ThreadOk(s, i)
    requires SubOf(Now(s) - 1) != s.thread[i].sub
    ensures SubOk(s', Now(s) - 1, s'.sub[SubOf(Now(s) - 1)]) && Above(s'.past, Now(s) - 1) == s.n
  {
    var k := Now(s) - 1;
    AboveGrows(s, s', k);
    hide ThreadsOk, ResultsOk;
    if s.stage[k].Running? { DataKept(s, s', k, s.sub[SubOf(k)].data); }
  }

  lemma AnnounceOk(s: State, i: nat)
    requires Inv(s) && Enabled(s, DoAnnounce(i))
    ensures Inv(Step(s, DoAnnounce(i)))
  {
    NotAllLeft(s, i);
    hide RoundsOk, ThreadsOk, ResultsOk, DataOk, CodesOk, RetOk;
    CountedOk(s, AnnounceStep(s, i), i);
  }

  lemma CountOk(s: State, i: nat)
    requires Inv(s) && Enabled(s, DoCount(i))
    ensures Inv(Step(s, DoCount(i)))
  {
    NotAllLeft(s, i);
    hide RoundsOk, ThreadsOk, ResultsOk, DataOk, CodesOk, RetOk;
    CountedOk(s, CountStep(s, i), i);
  }

  // ---------- Combining an element ----------

  /** Thread `i` is done with element `e`: the shared element is combined with its own. */
  ghost predicate Combined(s: State, s': State, i: nat, e: nat) {
    && Known(s, i) && Mine(s, i).data.Res? && (s.thread[i].pc == Element(e) || (s.thread[i].pc.Swap? && s.thread[i].pc.e == e))
    && e < |Mine(s, i).data.vals| && e < |s.thread[i].send|
    && s' == SetElem(s, i, e, Apply(s.thread[i].op, Mine(s, i).data.vals[e], s.thread[i].send[e]))
  }

  lemma CombinedOk(s: State, s': State, i: nat, e: nat)
    requires Inv(s) && Combined(s, s', i, e)
    ensures Inv(s')
  {
    NotAllLeft(s, i);
    assert SizesOk(s');
    forall j | 0 <= j < s.n ensures ThreadOk(s', j) { CombinedThread(s, s', i, e, j); }
    ResultsStay(s, s');
    hide ResultsOk, ResultAt;
    CombinedData(s, s', i, e);
    hide ResultsOk, ResultAt, ThreadOk, DataOk;
    if Now(s) > 0 {
      OtherRound(s, i);
      CombinedOther(s, s', i, e);
    }
  }

  lemma CombinedThread(s: State, s': State, i: nat, e: nat, j: nat)
    requires Inv(s) && Combined(s, s', i, e) && SizesOk(s') && j < s.n
    ensures ThreadOk(s', j)
  {
    NotAllLeft(s, i);
    assert ThreadOk(s, j);
    hide RoundsOk, ThreadsOk, ResultsOk;
  }

  lemma CombinedVal(s: State, s': State, i: nat, e: nat, x: nat)
    requires Inv(s) && Combined(s, s', i, e) && SizesOk(s') && x < |Mine(s, i).data.vals|
    ensures Now(s) < |s'.ops| && Mine(s', i).data.Res? && |Mine(s', i).data.vals| == |Mine(s, i).data.vals|
    ensures Mine(s', i).data.vals[x] == Fold(s'.ops[Now(s)], Row(s', Now(s), x))
  {
    NotAllLeft(s, i);
    var k := Now(s);
    hide RoundsOk, ThreadsOk, ResultsOk, AtElementOk, Above;
    if x == e {
      assert Row(s', k, e) == Row(s, k, e)[i := s.thread[i].send[e]];
      FoldUpdate(s.ops[k], Row(s, k, e), i, s.thread[i].send[e]);
    } else {
      assert Row(s', k, x) == Row(s, k, x);
    }
  }

  lemma CombinedData(s: State, s': State, i: nat, e: nat)
    requires Inv(s) && Combined(s, s', i, e) && SizesOk(s')
    ensures SubOk(s', Now(s), s'.sub[SubOf(Now(s))])
  {
    NotAllLeft(s, i);
    var vals := Mine(s, i).data.vals;
    forall x | 0 <= x < |vals| ensures Mine(s', i).data.vals[x] == Fold(s'.ops[Now(s)], Row(s', Now(s), x)) { CombinedVal(s, s', i, e, x); }
    hide RoundsOk, ThreadsOk, ResultsOk, AtElementOk, Above, Row;
  }

  lemma CombinedOther(s: State, s': State, i: nat, e: nat)
    requires Inv(s) && Combined(s, s', i, e) && Now(s) > 0 && SizesOk(s') && ThreadOk(s, i)
    requires SubOf(Now(s) - 1) != s.thread[i].sub
    ensures SubOk(s', Now(s) - 1, s'.sub[SubOf(Now(s) - 1)])
  {
    var k := Now(s) - 1;
    hide ThreadsOk, ResultsOk;
    if s.stage[k].Running? { DataKept(s, s', k, s.sub[SubOf(k)].data); }
  }

  /** The sub-object that a thread combines into has the width of the round, if there was memory for it. */
  lemma ElementWidth(s: State, i: nat)
    requires Inv(s) && Known(s, i) && s.thread[i].pc.Element?
    ensures ThreadOk(s, i) && Round(s, i) < |s.width| && (Mine(s, i).data.Res? <==> s.mem[Round(s, i)])
    ensures Mine(s, i).data.Res? ==> |Mine(s, i).data.vals| == s.width[Round(s, i)]
  {
    NotAllLeft(s, i);
    hide RoundsOk, ThreadsOk, ResultsOk;
  }

  /** There are no data to combine into: the thread goes on with the code for want of memory. */
  lemma ElementNoData(s: State, i: nat)
    requires Inv(s) && Known(s, i) && s.thread[i].pc.Element? && !Mine(s, i).data.Res?
    ensures Inv(ElementStep(s, i))
  {
    ElementWidth(s, i);
    hide RoundsOk, ThreadsOk, ResultsOk, DataOk, SubOk, AtElementOk, Above;
    StanceOk(s, ElementStep(s, i), i);
  }

  /** No element is left: nothing shared changes. */
  lemma ElementsDone(s: State, i: nat)
    requires Inv(s) && Known(s, i) && s.thread[i].pc.Element? && Mine(s, i).data.Res? && s.thread[i].pc.e >= Todo(s, i)
    ensures Inv(At(s, i, Count))
  {
    ElementWidth(s, i);
    hide RoundsOk, ThreadsOk, ResultsOk, DataOk, SubOk, CodesOk, Above;
    StanceOk(s, At(s, i, Count), i);
  }

  /** The read finds that the element must be swapped in: nothing shared changes yet. */
  lemma ElementRead(s: State, i: nat)
    requires Inv(s) && Known(s, i) && s.thread[i].pc.Element? && Mine(s, i).data.Res? && s.thread[i].pc.e < Todo(s, i)
    requires ElementStep(s, i).thread[i].pc.Swap?
    ensures Inv(ElementStep(s, i))
  {
    ElementWidth(s, i);
    hide RoundsOk, ThreadsOk, ResultsOk, DataOk, SubOk, CodesOk, Above;
    ValsStay(s, ElementStep(s, i), i);
    hide Val, Did;
    StanceOk(s, ElementStep(s, i), i);
  }

  /** The same elements are done: nothing changes in what the thread contributed so far. */
  lemma ValsStay(s: State, s': State, i: nat)
    requires StanceOnly(s, s', i) && forall e: nat :: s'.thread[i].pc.Did(e) == s.thread[i].pc.Did(e)
    ensures forall k: nat, e: nat :: k < |s.ops| ==> Val(s', i, k, e) == Val(s, i, k, e)
  { }

  /** The addition, or a read that finds nothing to improve, is a combination at once. */
  lemma ElementCombines(s: State, i: nat)
    requires Inv(s) && Known(s, i) && s.thread[i].pc.Element? && Mine(s, i).data.Res? && ElementStep(s, i).thread[i].pc.Element?
    ensures Combined(s, ElementStep(s, i), i, s.thread[i].pc.e)
  {
    hide Inv;
    var vals, e := Mine(s, i).data.vals, s.thread[i].pc.e;
    assert vals[e := vals[e]] == vals;
    assert s.sub[s.thread[i].sub := Mine(s, i)] == s.sub;
  }

  lemma ElementOk(s: State, i: nat)
    requires Inv(s) && Enabled(s, DoElement(i))
    ensures Inv(Step(s, DoElement(i)))
  {
    hide Inv, Combined;
    if !Mine(s, i).data.Res? {
      ElementNoData(s, i);
    } else if s.thread[i].pc.e >= Todo(s, i) {
      ElementsDone(s, i);
    } else if ElementStep(s, i).thread[i].pc.Element? {
      ElementCombines(s, i);
      CombinedOk(s, ElementStep(s, i), i, s.thread[i].pc.e);
    } else {
      ElementRead(s, i);
    }
  }

  lemma SwapCombines(s: State, i: nat)
    requires Inv(s) && Enabled(s, DoSwap(i)) && Mine(s, i).data.vals[s.thread[i].pc.e] == s.thread[i].pc.seen
    ensures Combined(s, Step(s, DoSwap(i)), i, s.thread[i].pc.e)
  {
    NotAllLeft(s, i);
    hide RoundsOk, ThreadsOk, ResultsOk, DataOk, SubOk, StageTie;
  }

  lemma SwapMisses(s: State, i: nat)
    requires Inv(s) && Enabled(s, DoSwap(i)) && Mine(s, i).data.vals[s.thread[i].pc.e] != s.thread[i].pc.seen
    ensures Inv(Step(s, DoSwap(i)))
  {
    NotAllLeft(s, i);
    hide RoundsOk, ThreadsOk, ResultsOk, DataOk, SubOk, CodesOk, Above;
    ValsStay(s, Step(s, DoSwap(i)), i);
    hide Val, Did;
    StanceOk(s, Step(s, DoSwap(i)), i);
  }

  lemma SwapOk(s: State, i: nat)
    requires Inv(s) && Enabled(s, DoSwap(i))
    ensures Inv(Step(s, DoSwap(i)))
  {
    hide Inv, Step, Combined;
    if Mine(s, i).data.vals[s.thread[i].pc.e] == s.thread[i].pc.seen {
      SwapCombines(s, i);
      CombinedOk(s, Step(s, DoSwap(i)), i, s.thread[i].pc.e);
    } else {
      SwapMisses(s, i);
    }
  }

  // ---------- Taking the result and leaving ----------

  lemma CopyResults(s: State, i: nat)
    requires Inv(s) && Enabled(s, DoCopy(i)) && SizesOk(Step(s, DoCopy(i)))
    ensures ResultsOk(Step(s, DoCopy(i)))
  {
    var s' := Step(s, DoCopy(i));
    CopySelf(s, i);
    hide ThreadOk, ResultAt, RoundsOk, ThreadsOk;
    forall j, k | 0 <= j < s.n && 0 <= k < |s'.result[j]| ensures ResultAt(s', j, k) {
      if j == i && k == Round(s, i) { CopyResult(s, i); } else { ResultStays(s, s', j, k); }
    }
  }

  lemma CopyOk(s: State, i: nat)
    requires Inv(s) && Enabled(s, DoCopy(i))
    ensures Inv(Step(s, DoCopy(i)))
  {
    var s' := Step(s, DoCopy(i));
    assert SizesOk(s');
    CopySelf(s, i);
    forall j | 0 <= j < s.n && j != i ensures ThreadOk(s', j) { CopyThread(s, i, j); }
    CopyResults(s, i);
    hide ThreadOk, ResultsOk, SubOk;
    CopySub(s, i, Now(s));
    if Now(s) > 0 { CopySub(s, i, Now(s) - 1); }
  }

  lemma CopySelf(s: State, i: nat)
    requires Inv(s) && Enabled(s, DoCopy(i)) && SizesOk(Step(s, DoCopy(i)))
    ensures ThreadOk(Step(s, DoCopy(i)), i)
    ensures ThreadOk(s, i) && |s.result[i]| == Round(s, i)
  {
    NotAllLeft(s, i);
    hide ThreadsOk, ResultsOk, RoundsOk, SubOk;
  }

  lemma CopyThread(s: State, i: nat, j: nat)
    requires Inv(s) && Enabled(s, DoCopy(i)) && SizesOk(Step(s, DoCopy(i))) && j < s.n && j != i
    ensures ThreadOk(Step(s, DoCopy(i)), j)
  {
    assert ThreadOk(s, j);
    hide ThreadsOk, ResultsOk, RoundsOk, SubOk, CodesOk, RetOk, StageTie, AtElementOk, NumbersOk, Above;
  }

  lemma CopySub(s: State, i: nat, k: nat)
    requires Inv(s) && Enabled(s, DoCopy(i)) && SizesOk(Step(s, DoCopy(i))) && k < |s.stage| && SubOk(s, k, s.sub[SubOf(k)])
    ensures SubOk(Step(s, DoCopy(i)), k, s.sub[SubOf(k)])
  {
    hide ThreadsOk, ResultsOk, RoundsOk;
    if s.stage[k].Filled? || s.stage[k].Running? { DataKept(s, Step(s, DoCopy(i)), k, s.sub[SubOf(k)].data); }
  }

  /** What a thread copies after all have been counted is the fold of all contributions to its round. */
  lemma CopyResult(s: State, i: nat)
    requires Inv(s) && Enabled(s, DoCopy(i)) && SizesOk(Step(s, DoCopy(i)))
    ensures ThreadOk(s, i) && ResultAt(Step(s, DoCopy(i)), i, Round(s, i))
  {
    NotAllLeft(s, i);
    var s', k := Step(s, DoCopy(i)), Round(s, i);
    AboveAll(s.past, k);
    forall j | 0 <= j < s.n ensures k < |s.contrib[j]| { assert ThreadOk(s, j); }
    hide ThreadsOk, ResultsOk, RoundsOk;
    if s.mem[k] {
      forall e | 0 <= e < |s'.result[i][k].vals| ensures s'.result[i][k].vals[e] == Fold(s'.ops[k], Col(s', k, e)) {
        assert Col(s', k, e) == Row(s, k, e);
      }
    }
  }

  /** Thread `i`, leaving, changed only the sub-object and the stage of its own round. */
  ghost predicate LeaveOnly(s: State, s': State, i: nat) {
    && Known(s, i) && |s.contrib[i]| > 0 && Round(s, i) < |s.stage|
    && |s'.thread| == s.n && |s'.sub| == 2 && |s'.stage| == |s.stage|
    && s' == s.(thread := s.thread[i := s.thread[i].(pc := s'.thread[i].pc)],
                sub := s.sub[s.thread[i].sub := s'.sub[s.thread[i].sub]],
                stage := s.stage[Round(s, i) := s'.stage[Round(s, i)]],
                left := if s.thread[i].pc.Done? then s.left[i := s.left[i] + 1] else s.left)
    && (s.thread[i].pc.Done? || s.thread[i].pc.Clear? || s.thread[i].pc.Reopen?)
    && s'.thread[i].pc.Leaving()
    && (s'.stage[Round(s, i)] == s.stage[Round(s, i)] || s'.stage[Round(s, i)].Clearing? || s'.stage[Round(s, i)].Cleared? || s'.stage[Round(s, i)].Over?)
  }

  /**
   * The stage of the round that thread `i` leaves: it stays, or all have left
   * and `i` resets the sub-object; nobody else does.
   */
  ghost predicate LeaveStage(s: State, s': State, i: nat) requires LeaveOnly(s, s', i) {
    var g, g' := s.stage[Round(s, i)], s'.stage[Round(s, i)];
    && (g' == g || Above(s'.left, Round(s, i)) == s.n)
    && (g'.Clearing? || g'.Cleared? ==> g'.who == i)
    && (s.thread[i].pc.Done? || g == Clearing(i) || g == Cleared(i))
  }

  lemma LeaveOther(s: State, s': State, i: nat, k: nat)
    requires Inv(s) && LeaveOnly(s, s', i) && SizesOk(s') && ThreadOk(s, i) && k < |s.stage| && SubOk(s, k, s.sub[SubOf(k)])
    requires k != Round(s, i) && SubOf(Round(s, i)) == s.thread[i].sub != SubOf(k)
    ensures SubOk(s', k, s'.sub[SubOf(k)])
  {
    LeaveCounts(s, s', i, k);
    hide ThreadsOk, ResultsOk, RoundsOk, ThreadOk, Above;
    if s.stage[k].Filled? || s.stage[k].Running? { LeaveData(s, s', i, k, s.sub[SubOf(k)].data); }
    hide DataOk;
  }

  /** No other round loses or gains a thread that is done with it. */
  lemma LeaveCounts(s: State, s': State, i: nat, k: nat)
    requires Inv(s) && LeaveOnly(s, s', i) && ThreadOk(s, i) && k != Round(s, i)
    ensures Above(s'.left, k) == Above(s.left, k)
  {
    AboveBump(s.left, i, k);
    hide ThreadsOk, ResultsOk, RoundsOk, SizesOk;
  }

  lemma LeaveData(s: State, s': State, i: nat, k: nat, data: Shared)
    requires SizesOk(s) && SizesOk(s') && LeaveOnly(s, s', i) && DataOk(s, k, data)
    ensures DataOk(s', k, data)
  {
    DataKept(s, s', k, data);
  }

  lemma LeaveNear(s: State, s': State, i: nat, j: nat)
    requires Inv(s) && LeaveOnly(s, s', i) && LeaveStage(s, s', i) && SizesOk(s') && j < s.n && j != i
    requires |s.contrib[j]| == |s.contrib[i]| && ThreadOk(s, i)
    ensures ThreadOk(s', j)
  {
    assert ThreadOk(s, j);
    hide ThreadsOk, ResultsOk, RoundsOk, DataOk, SubOk, AtElementOk;
    var k := Round(s, i);
    if s'.stage[k] != s.stage[k] && !s.thread[j].pc.Away? {
      AboveAll(s'.left, k);
      assert s'.left[j] > k;
      TieOfLeaver(s.thread[j].pc, i, j, s.stage[k], s'.stage[k]);
    }
    hide StageTie, Above;
  }

  /** A thread that has left does not notice who resets the sub-object. */
  lemma TieOfLeaver(pc: Pc, i: nat, j: nat, g: Stage, g': Stage)
    requires pc.Leaving() && i != j && StageTie(pc, j, g)
    requires g.Running? || g == Clearing(i) || g == Cleared(i)
    requires g' == Clearing(i) || g' == Cleared(i) || g'.Over?
    ensures StageTie(pc, j, g') && WinnerTie(pc, j, g')
  { }

  /** A thread of another round does not notice. */
  lemma LeaveFar(s: State, s': State, i: nat, j: nat)
    requires Inv(s) && LeaveOnly(s, s', i) && SizesOk(s') && j < s.n && |s.contrib[j]| != |s.contrib[i]|
    requires ThreadOk(s, i)
    ensures ThreadOk(s', j)
  {
    assert ThreadOk(s, j);
    hide ThreadsOk, ResultsOk, RoundsOk, DataOk, SubOk, StageTie, AtElementOk, NumbersOk, Above;
  }

  lemma LeaveThread(s: State, s': State, i: nat, j: nat)
    requires Inv(s) && LeaveOnly(s, s', i) && LeaveStage(s, s', i) && SizesOk(s') && j < s.n && j != i
    requires ThreadOk(s, i)
    ensures ThreadOk(s', j)
  {
    hide Inv, SizesOk, ThreadOk;
    if |s.contrib[j]| == |s.contrib[i]| { LeaveNear(s, s', i, j); } else { LeaveFar(s, s', i, j); }
  }

  lemma LeaveRounds(s: State, s': State, i: nat)
    requires Inv(s) && LeaveOnly(s, s', i) && ThreadOk(s, i) && SizesOk(s') && SubOk(s', Round(s, i), s'.sub[s.thread[i].sub])
    requires LeaveStage(s, s', i)
    ensures RoundsOk(s')
  {
    hide ThreadsOk, ResultsOk;
    var k := Round(s, i);
    if k == Now(s) {
      if Now(s) > 0 { LeaveOther(s, s', i, Now(s) - 1); }
    } else {
      LeaveOther(s, s', i, Now(s));
    }
  }

  lemma LeaveOk(s: State, s': State, i: nat)
    requires Inv(s) && LeaveOnly(s, s', i) && LeaveStage(s, s', i) && ThreadOk(s, i)
    requires SizesOk(s') ==> ThreadOk(s', i) && SubOk(s', Round(s, i), s'.sub[s.thread[i].sub])
    ensures Inv(s')
  {
    assert SizesOk(s');
    hide ThreadOk, ResultAt;
    forall j | 0 <= j < s.n ensures ThreadOk(s', j) { if j != i { LeaveThread(s, s', i, j); } }
    ResultsStay(s, s');
    hide ResultsOk, ResultAt;
    LeaveRounds(s, s', i);
  }

  /** The count of those who are done, and what it means for the stage of the round */
  lemma DoneStage(s: State, i: nat)
    requires Inv(s) && Known(s, i) && s.thread[i].pc.Done?
    ensures ThreadOk(s, i) && Round(s, i) < |s.stage|
    ensures var s', k := DoneStep(s, i), Round(s, i);
            && Above(s'.left, k) == Above(s.left, k) + 1 <= s.n
            && s.stage[k].Running? && SubOk(s, k, Mine(s, i))
            && s'.stage[k] == (if Above(s'.left, k) == s.n then Clearing(i) else Running)
            && s'.thread[i].pc == (if Above(s'.left, k) == s.n then Pc.Clear else Check)
  {
    NotAllLeft(s, i);
    AboveBump(s.left, i, Round(s, i));
    hide RoundsOk, ThreadsOk, ResultsOk, DataOk, AtElementOk, CodesOk;
  }

  lemma DoneSub(s: State, i: nat)
    requires Inv(s) && Known(s, i) && s.thread[i].pc.Done? && SizesOk(DoneStep(s, i))
    ensures Round(s, i) < |s.stage| && SubOk(DoneStep(s, i), Round(s, i), DoneStep(s, i).sub[s.thread[i].sub])
  {
    DoneStage(s, i);
    hide RoundsOk, ThreadsOk, ResultsOk, AtElementOk, Above;
    var s', k := DoneStep(s, i), Round(s, i);
    if s'.stage[k].Running? { DataKept(s, s', k, Mine(s, i).data); }
    hide DataOk, StageTie;
  }

  lemma DoneShape(s: State, i: nat)
    requires Known(s, i) && Round(s, i) < |s.stage|
    ensures var last := Mine(s, i).done + 1 == s.n;
            DoneStep(s, i) == s.(thread := s.thread[i := s.thread[i].(pc := if last then Pc.Clear else Check)],
                                 sub := s.sub[s.thread[i].sub := Mine(s, i).(done := Mine(s, i).done + 1)],
                                 left := s.left[i := s.left[i] + 1],
                                 stage := if last then s.stage[Round(s, i) := Clearing(i)] else s.stage)
  { }

  lemma DoneWinner(s: State, i: nat)
    requires Inv(s) && Known(s, i) && s.thread[i].pc.Done? && SizesOk(DoneStep(s, i))
    ensures WinnerTie(DoneStep(s, i).thread[i].pc, i, DoneStep(s, i).stage[Now(s)])
  {
    DoneStage(s, i);
    DoneShape(s, i);
    assert ThreadOk(s, i);
    hide RoundsOk, ThreadsOk, ResultsOk, SubOk, InCallOk, CodesOk, SubOf, Above, DoneStep;
  }

  lemma DoneThread(s: State, i: nat)
    requires Inv(s) && Known(s, i) && s.thread[i].pc.Done? && SizesOk(DoneStep(s, i))
    ensures ThreadOk(DoneStep(s, i), i)
  {
    DoneStage(s, i);
    DoneShape(s, i);
    DoneWinner(s, i);
    hide RoundsOk, ThreadsOk, ResultsOk, SubOk, DataOk, AtElementOk, CodesOk, SubOf, Above, DoneStep, WinnerTie;
  }

  lemma DoneSizes(s: State, i: nat)
    requires Inv(s) && Known(s, i) && s.thread[i].pc.Done?
    ensures SizesOk(DoneStep(s, i)) && LeaveOnly(s, DoneStep(s, i), i)
  {
    DoneStage(s, i);
    DoneShape(s, i);
    hide RoundsOk, ThreadsOk, ResultsOk, SubOk, SubOf, RetOk, CodesOk, Above, DoneStep;
  }

  lemma DoneOk(s: State, i: nat)
    requires Inv(s) && Enabled(s, DoDone(i))
    ensures Inv(Step(s, DoDone(i)))
  {
    DoneSizes(s, i);
    DoneStage(s, i);
    DoneSub(s, i);
    DoneThread(s, i);
    hide Inv, SubOk, ThreadOk, LeaveOnly, SizesOk;
    LeaveOk(s, DoneStep(s, i), i);
  }

  lemma ClearOk(s: State, i: nat)
    requires Inv(s) && Enabled(s, DoClear(i))
    ensures Inv(Step(s, DoClear(i)))
  {
    assert ThreadOk(s, i);
    var k := Round(s, i);
    assert SubOk(s, k, s.sub[SubOf(k)]);
    hide RoundsOk, ThreadsOk, ResultsOk;
    LeaveOk(s, Step(s, DoClear(i)), i);
  }

  lemma ReopenOk(s: State, i: nat)
    requires Inv(s) && Enabled(s, DoReopen(i))
    ensures Inv(Step(s, DoReopen(i)))
  {
    assert ThreadOk(s, i);
    var k := Round(s, i);
    assert SubOk(s, k, s.sub[SubOf(k)]);
    hide RoundsOk, ThreadsOk, ResultsOk;
    LeaveOk(s, Step(s, DoReopen(i)), i);
  }

  // ---------- The switch ----------

  /** When a thread switches the pointer, everybody is counted in its round and has left the one before. */
  lemma AllInRound(s: State, i: nat, j: nat)
    requires Inv(s) && Known(s, i) && s.thread[i].pc.Switch? && s.subp == s.thread[i].sub && j < s.n
    ensures ThreadOk(s, i) && Round(s, i) == Now(s)
    ensures s.past[j] == Now(s) + 1 && |s.contrib[j]| == Now(s) + 1 && !s.thread[j].pc.Away? && Now(s) <= s.left[j] <= Now(s) + 1
  {
    assert ThreadOk(s, i) && ThreadOk(s, j);
    AboveAll(s.past, Now(s));
    hide ThreadsOk, RoundsOk, ResultsOk, AtElementOk, StageTie, RetOk, CodesOk;
  }

  /** So the other sub-object is clean. */
  lemma OtherClean(s: State, i: nat)
    requires Inv(s) && Known(s, i) && s.thread[i].pc.Switch? && s.subp == s.thread[i].sub
    ensures ThreadOk(s, i) && Round(s, i) == Now(s)
    ensures Now(s) > 0 ==> s.stage[Now(s) - 1].Over?
    ensures s.sub[1 - s.subp] == Sub(-1, 0, Nothing)
    ensures forall j :: 0 <= j < s.n ==> s.past[j] == Now(s) + 1 && |s.contrib[j]| == Now(s) + 1 && !s.thread[j].pc.Away? && s.left[j] <= Now(s) + 1
  {
    var c := Now(s);
    forall j | 0 <= j < s.n
      ensures s.past[j] == c + 1 && |s.contrib[j]| == c + 1 && !s.thread[j].pc.Away? && s.left[j] <= c + 1 && s.left[j] >= c
    { AllInRound(s, i, j); }
    AllInRound(s, i, i);
    hide ThreadOk, ThreadsOk, ResultsOk, DataOk, Above;
    if c > 0 { AboveAll(s.left, c - 1); }
  }

  lemma SwitchedThread(s: State, i: nat, j: nat)
    requires Inv(s) && Known(s, i) && s.thread[i].pc.Switch? && s.subp == s.thread[i].sub && SizesOk(SwitchStep(s, i)) && j < s.n
    ensures ThreadOk(SwitchStep(s, i), j)
  {
    OtherClean(s, i);
    assert ThreadOk(s, j);
    hide RoundsOk, ThreadsOk, ResultsOk;
  }

  lemma SwitchedRounds(s: State, i: nat)
    requires Inv(s) && Known(s, i) && s.thread[i].pc.Switch? && s.subp == s.thread[i].sub
    ensures SizesOk(SwitchStep(s, i)) && RoundsOk(SwitchStep(s, i))
  {
    var c := Now(s);
    OtherClean(s, i);
    assert SizesOk(SwitchStep(s, i));
    AboveNone(s.past, c + 1);
    AboveNone(s.left, c + 1);
    AboveAll(s.past, c);
    SwitchedSub(s, i);
    hide ThreadOk, ThreadsOk, ResultsOk, DataOk;
  }

  lemma SwitchedOk(s: State, i: nat)
    requires Inv(s) && Known(s, i) && s.thread[i].pc.Switch? && s.subp == s.thread[i].sub
    ensures Inv(SwitchStep(s, i))
  {
    var s' := SwitchStep(s, i);
    SwitchedRounds(s, i);
    hide ThreadOk, RoundsOk, SubOk;
    forall j | 0 <= j < s.n ensures ThreadOk(s', j) { SwitchedThread(s, i, j); }
    ResultsStay(s, s');
  }

  lemma SwitchedSub(s: State, i: nat)
    requires Inv(s) && Known(s, i) && s.thread[i].pc.Switch? && s.subp == s.thread[i].sub && SizesOk(SwitchStep(s, i))
    ensures SubOk(SwitchStep(s, i), Now(s), s.sub[SubOf(Now(s))])
  {
    assert SubOk(s, Now(s), s.sub[SubOf(Now(s))]);
    var s', c := SwitchStep(s, i), Now(s);
    hide ThreadsOk, ResultsOk, RoundsOk;
    if s.stage[c].Filled? || s.stage[c].Running? { DataKept(s, s', c, s.sub[SubOf(c)].data); }
  }

  lemma SwitchOk(s: State, i: nat)
    requires Inv(s) && Enabled(s, DoSwitch(i))
    ensures Inv(Step(s, DoSwitch(i)))
  {
    if s.subp == s.thread[i].sub {
      SwitchedOk(s, i);
    } else {
      assert ThreadOk(s, i);
      StanceOk(s, Step(s, DoSwitch(i)), i);
    }
  }

  // ---------- Runs ----------

  /** Every step of every thread keeps the invariant. */
  lemma StepKeeps(s: State, a: Action)
    requires Inv(s) && Enabled(s, a)
    ensures Inv(Step(s, a))
  {
    hide Inv;
    match a
    case DoEnter(i, send, op) => EnterOk(s, i, send, op);
    case DoTest(i) => TestOk(s, i);
    case DoElect(i) => ElectOk(s, i);
    case DoFill(i, got) => FillOk(s, i, got);
    case DoAnnounce(i) => AnnounceOk(s, i);
    case DoPass(i) => PassOk(s, i);
    case DoElement(i) => ElementOk(s, i);
    case DoSwap(i) => SwapOk(s, i);
    case DoCount(i) => CountOk(s, i);
    case DoGather(i) => GatherOk(s, i);
    case DoCopy(i) => CopyOk(s, i);
    case DoDone(i) => DoneOk(s, i);
    case DoClear(i) => ClearOk(s, i);
    case DoReopen(i) => ReopenOk(s, i);
    case DoCheck(i) => CheckOk(s, i);
    case DoSwitch(i) => SwitchOk(s, i);
  }

  lemma SizeKept(s: State, a: Action)
    requires Enabled(s, a)
    ensures Step(s, a).n == s.n
  { }

  lemma NextKeeps(s: State, s': State)
    requires Inv(s) && Next(s, s')
    ensures Inv(s') && s'.n == s.n
  {
    hide Inv, Step, Enabled;
    var a :| Enabled(s, a) && s' == Step(s, a);
    StepKeeps(s, a);
    SizeKept(s, a);
  }

  lemma {:induction false} RunKeeps(n: nat, run: seq<State>, t: nat)
    requires IsRun(n, run) && t < |run|
    ensures Inv(run[t]) && run[t].n == n
  {
    hide Inv, Next;
    if t == 0 {
      InitOk(n);
    } else {
      RunKeeps(n, run, t - 1);
      assert Next(run[t - 1], run[t - 1 + 1]);
      NextKeeps(run[t - 1], run[t]);
    }
  }
}
