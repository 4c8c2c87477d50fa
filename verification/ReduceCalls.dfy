/**
 * The reduction queue seen from outside: what the calls were given and what
 * they gave.  A trace is a run together with its steps, and the arguments of
 * the calls are read off the steps.
 */
module ReduceCalls {
  import opened Basics
  import opened Counting
  import opened ReduceOps
  import opened Reduce
  import opened ReduceProof
  import opened ReduceSteps
  import opened ReduceRounds
  import opened ReduceTheorems

  ghost predicate IsTrace(n: nat, root: nat, run: seq<State>, acts: seq<Action>) {
    && n >= 2 && root < n && |run| == |acts| + 1 && run[0] == INIT(n, root)
    && forall t :: 0 <= t < |acts| ==> Enabled(run[t], acts[t]) && run[t + 1] == Step(run[t], acts[t])
  }

  lemma TraceIsRun(n: nat, root: nat, run: seq<State>, acts: seq<Action>)
    requires IsTrace(n, root, run, acts)
    ensures IsRun(n, root, run)
  {
    hide Enabled, Step;
    forall t | 0 <= t < |run| - 1 ensures Next(run[t], run[t + 1]) { assert Enabled(run[t], acts[t]) && run[t + 1] == Step(run[t], acts[t]); }
  }

  /** Every run has a trace. */
  lemma {:induction false} RunHasTrace(n: nat, root: nat, run: seq<State>) returns (acts: seq<Action>)
    requires IsRun(n, root, run)
    ensures IsTrace(n, root, run, acts)
  {
    hide Enabled, Step;
    if |run| == 1 {
      acts := [];
    } else {
      var front := run[..|run| - 1];
      forall t | 0 <= t < |front| - 1 ensures Next(front[t], front[t + 1]) { assert Next(run[t], run[t + 1]); }
      acts := RunHasTrace(n, root, front);
      assert Next(run[|run| - 2], run[|run| - 2 + 1]);
      var a :| Enabled(run[|run| - 2], a) && run[|run| - 1] == Step(run[|run| - 2], a);
      acts := acts + [a];
    }
  }

  // ---------- The arguments of the calls ----------

  /** What thread `i` was called with, in order */
  function Sends(acts: seq<Action>, i: nat): seq<seq<Int32>> {
    if acts == [] then [] else
    var a := acts[|acts| - 1];
    Sends(acts[..|acts| - 1], i) + (if a.DoEnter? && a.i == i then [a.send] else [])
  }

  /** The operators that thread `i` named, in order */
  function Named(acts: seq<Action>, i: nat): seq<Op> {
    if acts == [] then [] else
    var a := acts[|acts| - 1];
    Named(acts[..|acts| - 1], i) + (if a.DoEnter? && a.i == i then [a.op] else [])
  }

  /** Whether there was memory for the data of the rounds, in order */
  function Memories(acts: seq<Action>): seq<bool> {
    if acts == [] then [] else
    var a := acts[|acts| - 1];
    Memories(acts[..|acts| - 1]) + (if a.DoFill? then [a.got] else [])
  }

  /** What all threads brought, thread by thread and call by call */
  function Brought(n: nat, acts: seq<Action>): seq<seq<seq<Int32>>> { seq(n, i requires 0 <= i < n => Sends(acts, i)) }

  /** The history says what the calls were given. */
  ghost predicate Told(s: State, acts: seq<Action>) {
    && Sized(s) && s.mem == Memories(acts)
    && forall i :: 0 <= i < s.n ==> ThreadTold(s, acts, i)
  }

  predicate ThreadTold(s: State, acts: seq<Action>, i: nat) requires Sized(s) && i < s.n {
    && s.contrib[i] == Sends(acts, i)
    && |Named(acts, i)| == |s.contrib[i]| <= |s.ops|
    && forall k :: 0 <= k < |s.contrib[i]| ==> s.ops[k] == Named(acts, i)[k]
  }

  /**
   * What a step adds to the history: a call adds what it was given, and its
   * operator if no thread was in that call before; a filled round adds
   * whether there was memory; no other step adds anything.
   */
  lemma HistoryGrows(s: State, a: Action)
    requires Enabled(s, a)
    ensures var s' := Step(s, a);
      && Sized(s') && s'.n == s.n
      && s'.mem == s.mem + (if a.DoFill? then [a.got] else [])
      && s'.ops == s.ops + (if a.DoEnter? && |s.contrib[a.i]| >= |s.ops| then [a.op] else [])
      && forall i :: 0 <= i < s.n ==> s'.contrib[i] == s.contrib[i] + (if a.DoEnter? && a.i == i then [a.send] else [])
  {
    hide TakeStep, ElementStep, SwapStep;
    match a
    case DoTake(i) => TakeAdds(s, i);
    case DoElement(i) => ElementAdds(s, i);
    case DoSwap(i) => SwapAdds(s, i);
    case _ =>
  }

  lemma TakeAdds(s: State, i: nat)
    requires Known(s, i) && PoolOk(s)
    ensures var s' := TakeStep(s, i);
            s' == s.(thread := s'.thread, heap := s'.heap, brk := s'.brk, pool := s'.pool, place := s'.place) && |s'.thread| == |s.thread|
  {
    hide Upward, Blank, ChunkPlaces;
  }

  lemma ElementAdds(s: State, i: nat)
    requires Known(s, i) && s.thread[i].pc.Element? && s.thread[i].cur in s.heap
    ensures var s' := ElementStep(s, i); s' == s.(thread := s'.thread, heap := s'.heap) && |s'.thread| == |s.thread|
  { }

  lemma SwapAdds(s: State, i: nat)
    requires Enabled(s, DoSwap(i))
    ensures var s' := SwapStep(s, i); s' == s.(thread := s'.thread, heap := s'.heap) && |s'.thread| == |s.thread|
  { }

  lemma ToldStep(s: State, acts: seq<Action>, a: Action)
    requires Told(s, acts) && Enabled(s, a)
    ensures Told(Step(s, a), acts + [a])
  {
    HistoryGrows(s, a);
    var s' := Step(s, a);
    assert (acts + [a])[..|acts|] == acts;
    if a.DoEnter? { SameOperator(s, a); }
    hide Step, Enabled;
    forall i | 0 <= i < s.n ensures ThreadTold(s', acts + [a], i) { assert ThreadTold(s, acts, i); }
  }

  lemma SameOperator(s: State, a: Action)
    requires Enabled(s, a) && a.DoEnter?
    ensures |s.contrib[a.i]| < |s.ops| ==> a.op == s.ops[|s.contrib[a.i]|]
  { }

  /** The history of a run is what its calls were given. */
  lemma {:induction false} HistoryIsCalls(n: nat, root: nat, run: seq<State>, acts: seq<Action>)
    requires IsTrace(n, root, run, acts)
    ensures Told(run[|acts|], acts) && run[|acts|].n == n
  {
    hide Step, Enabled, Told;
    if acts == [] {
      FirstTold(n, root);
    } else {
      var m := |acts| - 1;
      assert IsTrace(n, root, run[..m + 1], acts[..m]);
      HistoryIsCalls(n, root, run[..m + 1], acts[..m]);
      assert Enabled(run[m], acts[m]) && run[m + 1] == Step(run[m], acts[m]);
      ToldStep(run[m], acts[..m], acts[m]);
      HistoryGrows(run[m], acts[m]);
      assert acts[..m] + [acts[m]] == acts;
    }
  }

  lemma FirstTold(n: nat, root: nat)
    requires n >= 2
    ensures Told(INIT(n, root), []) && INIT(n, root).n == n
  {
    hide Upward, Blank, FirstPlaces;
  }

  /** All threads are in call `k` or past it, and named the same operator. */
  ghost predicate SameCall(n: nat, root: nat, acts: seq<Action>, k: nat) {
    && root < n && k < |Memories(acts)| && k < |Named(acts, root)|
    && forall i :: 0 <= i < n ==> k < |Sends(acts, i)| && k < |Named(acts, i)| && Named(acts, i)[k] == Named(acts, root)[k]
  }

  /** The root got, element by element, the fold of what all threads brought, as far as two of them go. */
  ghost predicate Delivered(n: nat, root: nat, acts: seq<Action>, k: nat, out: Shared) requires SameCall(n, root, acts, k) {
    && (out.Res? <==> Memories(acts)[k])
    && (out.Res? ==>
         && (forall e :: 0 <= e < |out.vals| ==>
               out.vals[e] == Fold(Named(acts, root)[k], Column(n, Brought(n, acts), Named(acts, root)[k], k, e)))
         && (exists i :: 0 <= i < n && |out.vals| == Min(|Sends(acts, root)[k]|, |Sends(acts, i)[k]|)))
  }

  lemma DeliversAt(n: nat, root: nat, s: State, acts: seq<Action>, k: nat)
    requires Reachable(n, root, s) && Told(s, acts) && s.n == n && root < n && k < |s.result|
    ensures SameCall(n, root, acts, k) && Delivered(n, root, acts, k, s.result[k])
  {
    hide Reachable, Fold, Sends, Named, Memories, Column;
    KthResult(n, root, s, k);
    forall i | 0 <= i < n ensures k < |Sends(acts, i)| && k < |Named(acts, i)| && Named(acts, i)[k] == s.ops[k] {
      assert ThreadTold(s, acts, i) && k < |s.contrib[i]|;
    }
    assert SameCall(n, root, acts, k);
    forall i | 0 <= i < n ensures s.contrib[i] == Sends(acts, i) { assert ThreadTold(s, acts, i); }
    assert s.contrib == Brought(n, acts);
    var op := Named(acts, root)[k];
    assert op == s.ops[k];
    assert Delivered(n, root, acts, k, s.result[k]);
  }

  /**
   * The `k`-th call, from the arguments of all threads: with memory for the
   * data of the round the root gets, element by element, the fold of what all
   * threads brought to their `k`-th call with the operator that they named;
   * without memory it gets nothing.
   */
  lemma ReductionDelivers(n: nat, root: nat, run: seq<State>, acts: seq<Action>, k: nat)
    requires IsTrace(n, root, run, acts) && k < |run[|acts|].result|
    ensures SameCall(n, root, acts, k) && Delivered(n, root, acts, k, run[|acts|].result[k])
  {
    HistoryIsCalls(n, root, run, acts);
    TraceIsRun(n, root, run, acts);
    hide IsRun, Step, Enabled, Told;
    assert Reachable(n, root, run[|acts|]);
    DeliversAt(n, root, run[|acts|], acts, k);
  }

  /** The code that a thread's `k`-th call returned is that of the memory for the data of the round. */
  lemma CodeReturned(n: nat, root: nat, run: seq<State>, acts: seq<Action>, i: nat, k: nat)
    requires IsTrace(n, root, run, acts) && i < |run[|acts|].codes| && k < |run[|acts|].codes[i]|
    ensures k < |Memories(acts)| && run[|acts|].codes[i][k] == if Memories(acts)[k] then 0 else -2
  {
    HistoryIsCalls(n, root, run, acts);
    TraceIsRun(n, root, run, acts);
    hide IsTrace, IsRun, Step, Enabled, Memories;
    assert Reachable(n, root, run[|acts|]);
    hide Reachable;
    CodesAgree(n, root, run[|acts|], i, k);
  }

  // ---------- No data are lost ----------

  /** Only the handle of a filled round that the root has not taken has data. */
  ghost predicate DataHeld(s: State) {
    forall h :: h in s.heap && s.heap[h].data.Res? ==> h in s.place && MayHold(s, s.place[h])
  }

  predicate MayHold(s: State, p: Place) { p.Live? && p.k < Filled(s) }

  lemma DataHeldStep(s: State, a: Action)
    requires Inv(s) && DataHeld(s) && Enabled(s, a)
    ensures DataHeld(Step(s, a))
  {
    hide Inv, TakeStep, ElementStep, SwapStep, FillStep, GatherStep, AnnounceStep, CountStep, DropStep, GiveBackStep;
    match a
    case DoTake(i) => TakeKeepsHeld(s, i);
    case DoDrop(i) => DropKeepsHeld(s, i);
    case DoFill(i, got) => FillKeepsHeld(s, i, got);
    case DoAnnounce(i) => AnnounceKeepsHeld(s, i);
    case DoElement(i) => ElementKeepsHeld(s, i);
    case DoSwap(i) => SwapKeepsHeld(s, i);
    case DoCount(i) => CountKeepsHeld(s, i);
    case DoGather(i) => GatherKeepsHeld(s, i);
    case DoGiveBack(i) => GiveBackKeepsHeld(s, i);
    case _ =>
  }

  lemma TakeKeepsHeld(s: State, i: nat)
    requires Inv(s) && DataHeld(s) && Enabled(s, DoTake(i))
    ensures DataHeld(TakeStep(s, i))
  {
    if s.pool != [] { assert AtPlace(s, s.pool[|s.pool| - 1], Pooled(|s.pool| - 1)); }
    hide ChainOk, ThreadsOk, ResultsOk, Upward;
  }

  lemma DropKeepsHeld(s: State, i: nat)
    requires Inv(s) && DataHeld(s) && Enabled(s, DoDrop(i))
    ensures DataHeld(DropStep(s, i))
  {
    assert AtPlace(s, s.thread[i].pc.item, Held(i));
    hide ChainOk, ThreadsOk, ResultsOk;
  }

  lemma FillKeepsHeld(s: State, i: nat, got: bool)
    requires Inv(s) && DataHeld(s) && Enabled(s, DoFill(i, got))
    ensures DataHeld(FillStep(s, i, got))
  {
    OwnRound(s, i);
    assert AtPlace(s, s.thread[i].pc.item, Held(i));
    hide ChainOk, ThreadsOk, ResultsOk;
  }

  lemma AnnounceKeepsHeld(s: State, i: nat)
    requires Inv(s) && DataHeld(s) && Enabled(s, DoAnnounce(i))
    ensures DataHeld(AnnounceStep(s, i))
  {
    hide Inv;
  }

  lemma ElementKeepsHeld(s: State, i: nat)
    requires Inv(s) && DataHeld(s) && Enabled(s, DoElement(i))
    ensures DataHeld(ElementStep(s, i))
  {
    hide Inv;
  }

  lemma SwapKeepsHeld(s: State, i: nat)
    requires Inv(s) && DataHeld(s) && Enabled(s, DoSwap(i))
    ensures DataHeld(SwapStep(s, i))
  {
    hide Inv;
  }

  lemma CountKeepsHeld(s: State, i: nat)
    requires Inv(s) && DataHeld(s) && Enabled(s, DoCount(i))
    ensures DataHeld(CountStep(s, i))
  {
    hide Inv;
  }

  lemma GatherKeepsHeld(s: State, i: nat)
    requires Inv(s) && DataHeld(s) && Enabled(s, DoGather(i))
    ensures DataHeld(GatherStep(s, i))
  {
    hide Inv;
  }

  lemma GiveBackKeepsHeld(s: State, i: nat)
    requires Inv(s) && DataHeld(s) && Enabled(s, DoGiveBack(i))
    ensures DataHeld(GiveBackStep(s, i))
  {
    OwnRound(s, i);
    assert i == s.root && AtPlace(s, s.thread[i].cur, Unlinked);
    hide ChainOk, ThreadsOk, ResultsOk;
  }

  lemma {:induction false} HeldAt(n: nat, root: nat, run: seq<State>, t: nat)
    requires IsRun(n, root, run) && t < |run|
    ensures DataHeld(run[t])
  {
    hide Inv, Step, Enabled;
    if t == 0 {
      FirstHeld(n, root);
    } else {
      HeldAt(n, root, run, t - 1);
      RunKeeps(n, root, run, t - 1);
      assert Next(run[t - 1], run[t - 1 + 1]);
      var a :| Enabled(run[t - 1], a) && run[t] == Step(run[t - 1], a);
      DataHeldStep(run[t - 1], a);
    }
  }

  lemma FirstHeld(n: nat, root: nat)
    requires n >= 2
    ensures DataHeld(INIT(n, root))
  {
    hide Upward, FirstPlaces;
  }

  /** No data are lost: only the handle of a round that is filled, and whose result the root has not taken, has any. */
  lemma NoDataLost(n: nat, root: nat, s: State, h: int)
    requires Reachable(n, root, s) && h in s.heap && s.heap[h].data.Res?
    ensures exists k: nat :: |s.result| <= k < |s.mem| && k < |s.ids| && s.ids[k] == h && s.mem[k]
  {
    ReachableInv(n, root, s);
    assert DataHeld(s) by {
      var run, t: nat :| IsRun(n, root, run) && t < |run| && run[t] == s;
      HeldAt(n, root, run, t);
    }
    var k := s.place[h].k;
    assert AtPlace(s, h, s.place[h]) && ChainAt(s, k);
    hide ThreadsOk, ResultsOk;
  }

  // ---------- Every step brings a thread on ----------

  /** How far a thread is from the end of its call */
  function Distance(t: Thread): int {
    var m := 2 * |t.send|;
    match t.pc
    case Away => 0
    case GiveBack(_, _) => 1
    case Gather(_, _, _) => 2
    case Count(_) => 3
    case Announce(_, _) => 3
    case SetKey(_) => 4
    case Fill(_) => 4
    case Element(e) => 5 + m - 2 * e
    case Swap(e, _) => 4 + m - 2 * e
    case Wait => 6 + m
    case Drop(_) => 7 + m
    case Elect(_) => 8 + m
    case Take => 9 + m
    case Test => 10 + m
  }

  /** Another thread wrote the element since the thread read it. */
  predicate ElementChanged(s: State, a: Action) requires Enabled(s, a) {
    a.DoSwap? && Vals(s, a.i)[s.thread[a.i].pc.e] != s.thread[a.i].pc.seen
  }

  /** Thread `i` is nearer to the end of its call, and the others stay where they are. */
  ghost predicate Nearer(s: State, s': State, i: nat) requires Known(s, i) {
    && |s'.thread| == |s.thread|
    && Distance(s'.thread[i]) < Distance(s.thread[i])
    && Others(s, s', i)
  }

  ghost predicate Others(s: State, s': State, i: nat) requires Known(s, i) && |s'.thread| == |s.thread| {
    forall j :: 0 <= j < s.n && j != i ==> s'.thread[j] == s.thread[j]
  }

  lemma TakeAdvances(s: State, i: nat)
    requires Enabled(s, DoTake(i))
    ensures Nearer(s, TakeStep(s, i), i)
  {
    hide Upward, Blank, ChunkPlaces;
  }

  lemma ElementAdvances(s: State, i: nat)
    requires Enabled(s, DoElement(i)) && s.thread[i].pc.e <= |s.thread[i].send|
    ensures Nearer(s, ElementStep(s, i), i)
  { }

  lemma SwapAdvances(s: State, i: nat)
    requires Enabled(s, DoSwap(i))
    ensures var s' := SwapStep(s, i); |s'.thread| == |s.thread| && Others(s, s', i)
    ensures Vals(s, i)[s.thread[i].pc.e] != s.thread[i].pc.seen ==> SwapStep(s, i).thread[i].pc == Element(s.thread[i].pc.e)
    ensures Nearer(s, SwapStep(s, i), i) <==> Vals(s, i)[s.thread[i].pc.e] == s.thread[i].pc.seen
  { }

  lemma FillAdvances(s: State, i: nat, got: bool)
    requires Enabled(s, DoFill(i, got))
    ensures Nearer(s, FillStep(s, i, got), i)
  { }

  lemma LastAdvances(s: State, a: Action)
    requires Enabled(s, a) && (a.DoAnnounce? || a.DoCount? || a.DoGiveBack? || a.DoSetKey?)
    ensures Nearer(s, Step(s, a), a.i)
  { }

  lemma GatherAdvances(s: State, i: nat)
    requires Enabled(s, DoGather(i))
    ensures Nearer(s, GatherStep(s, i), i)
  { }

  lemma StepAdvances(s: State, a: Action)
    requires Enabled(s, a) && !a.DoEnter? && (s.thread[a.i].pc.Element? ==> s.thread[a.i].pc.e <= |s.thread[a.i].send|)
    ensures |Step(s, a).thread| == |s.thread| && Others(s, Step(s, a), a.i)
    ensures Nearer(s, Step(s, a), a.i) <==> !ElementChanged(s, a)
    ensures ElementChanged(s, a) ==> Step(s, a).thread[a.i].pc == Element(s.thread[a.i].pc.e)
  {
    match a
    case DoTake(i) => TakeAdvances(s, i); hide TakeStep;
    case DoElement(i) => ElementAdvances(s, i); hide ElementStep;
    case DoSwap(i) => SwapAdvances(s, i); hide SwapStep;
    case DoGather(i) => GatherAdvances(s, i); hide GatherStep;
    case DoFill(i, got) => FillAdvances(s, i, got); hide FillStep;
    case DoAnnounce(_) => LastAdvances(s, a); hide AnnounceStep;
    case DoCount(_) => LastAdvances(s, a); hide CountStep;
    case DoSetKey(_) => LastAdvances(s, a); hide SetKeyStep;
    case DoGiveBack(_) => LastAdvances(s, a); hide GiveBackStep;
    case _ =>
  }

  /**
   * Every step of a thread brings it nearer to the end of its call, unless its
   * compare-and-swap finds that another thread wrote the element, which it then
   * reads again; and no thread moves another one.
   */
  lemma ThreadAdvances(n: nat, root: nat, s: State, a: Action)
    requires Reachable(n, root, s) && Enabled(s, a) && !a.DoEnter?
    ensures |Step(s, a).thread| == |s.thread| && Others(s, Step(s, a), a.i)
    ensures Nearer(s, Step(s, a), a.i) <==> !ElementChanged(s, a)
    ensures ElementChanged(s, a) ==> Step(s, a).thread[a.i].pc == Element(s.thread[a.i].pc.e)
  {
    ReachableInv(n, root, s);
    ElementInside(s, a.i);
    hide Inv, Enabled, Step, Nearer, Others;
    StepAdvances(s, a);
  }

  lemma ElementInside(s: State, i: nat)
    requires Inv(s) && i < s.n
    ensures s.thread[i].pc.Element? ==> s.thread[i].pc.e <= |s.thread[i].send|
  {
    assert ThreadOk(s, i);
    hide PlacesOk, ChainOk, ThreadsOk, ResultsOk, Row, Fold;
  }

  /** And if nobody writes the element between that read and the compare-and-swap, it succeeds. */
  lemma RereadWins(s: State, i: nat)
    requires Enabled(s, DoElement(i)) && Step(s, DoElement(i)).thread[i].pc.Swap?
    ensures var t := Step(s, DoElement(i)); Enabled(t, DoSwap(i)) && !ElementChanged(t, DoSwap(i))
  { }
}
