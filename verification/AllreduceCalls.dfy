/**
 * The double-buffered allreduce seen from outside: what the calls were given
 * and what they gave.  A trace is a run together with its steps, and the
 * arguments of the calls are read off the steps.
 */
module AllreduceCalls {
  import opened Basics
  import opened Counting
  import opened ReduceOps
  import opened Allreduce
  import opened AllreduceProof
  import opened AllreduceSteps
  import opened AllreduceTheorems

  ghost predicate IsTrace(n: nat, run: seq<State>, acts: seq<Action>) {
    && n >= 2 && |run| == |acts| + 1 && run[0] == INIT(n)
    && forall t :: 0 <= t < |acts| ==> Enabled(run[t], acts[t]) && run[t + 1] == Step(run[t], acts[t])
  }

  lemma TraceIsRun(n: nat, run: seq<State>, acts: seq<Action>)
    requires IsTrace(n, run, acts)
    ensures IsRun(n, run)
  {
    hide Enabled, Step;
    forall t | 0 <= t < |run| - 1 ensures Next(run[t], run[t + 1]) { assert Enabled(run[t], acts[t]) && run[t + 1] == Step(run[t], acts[t]); }
  }

  /** Every run has a trace. */
  lemma {:induction false} RunHasTrace(n: nat, run: seq<State>) returns (acts: seq<Action>)
    requires IsRun(n, run)
    ensures IsTrace(n, run, acts)
  {
    hide Enabled, Step;
    if |run| == 1 {
      acts := [];
    } else {
      var front := run[..|run| - 1];
      forall t | 0 <= t < |front| - 1 ensures Next(front[t], front[t + 1]) { assert Next(run[t], run[t + 1]); }
      acts := RunHasTrace(n, front);
      assert Next(run[|run| - 2], run[|run| - 2 + 1]);
      var a :| Enabled(run[|run| - 2], a) && run[|run| - 1] == Step(run[|run| - 2], a);
      acts := acts + [a];
    }
  }

  // ---------- The arguments of the calls ----------

  /** What thread `i` was called with, in order */
  function Sends(acts: seq<Action>, i: nat): seq<seq<Int32>> {
    if acts == [] then [] else
    var a := acts[|acts| - 1];
    Sends(acts[..|acts| - 1], i) + (if a.DoEnter? && a.i == i then [a.send] else [])
  }

  /** The operators that thread `i` named, in order */
  function Named(acts: seq<Action>, i: nat): seq<Op> {
    if acts == [] then [] else
    var a := acts[|acts| - 1];
    Named(acts[..|acts| - 1], i) + (if a.DoEnter? && a.i == i then [a.op] else [])
  }

  /** Whether there was memory for the data of the rounds, in order */
  function Memories(acts: seq<Action>): seq<bool> {
    if acts == [] then [] else
    var a := acts[|acts| - 1];
    Memories(acts[..|acts| - 1]) + (if a.DoFill? then [a.got] else [])
  }

  /** What all threads brought, thread by thread and call by call */
  function Brought(n: nat, acts: seq<Action>): seq<seq<seq<Int32>>> { seq(n, i requires 0 <= i < n => Sends(acts, i)) }

  /** The history says what the calls were given, and a round is as wide as what one of them brought. */
  ghost predicate Told(s: State, acts: seq<Action>) {
    && Sized(s) && s.mem == Memories(acts)
    && (forall i :: 0 <= i < s.n ==> ThreadTold(s, acts, i))
    && forall k :: 0 <= k < |s.width| ==> WidthTold(s, k)
  }

  predicate ThreadTold(s: State, acts: seq<Action>, i: nat) requires Sized(s) && i < s.n {
    && s.contrib[i] == Sends(acts, i)
    && |Named(acts, i)| == |s.contrib[i]| <= |s.ops|
    && forall k :: 0 <= k < |s.contrib[i]| ==> s.ops[k] == Named(acts, i)[k]
  }

  predicate WidthTold(s: State, k: nat) requires Sized(s) && k < |s.width| {
    exists i :: 0 <= i < s.n && k < |s.contrib[i]| && s.width[k] == |s.contrib[i][k]|
  }

  /**
   * What a step adds to the history: a call adds what it was given, and its
   * operator if no thread was in that call before; a filled round adds
   * whether there was memory, and how much there is to combine; no other step
   * adds anything.
   */
  lemma HistoryGrows(s: State, a: Action)
    requires Enabled(s, a)
    ensures var s' := Step(s, a);
      && Sized(s') && s'.n == s.n
      && s'.mem == s.mem + (if a.DoFill? then [a.got] else [])
      && s'.width == s.width + (if a.DoFill? then [|s.thread[a.i].send|] else [])
      && s'.ops == s.ops + (if a.DoEnter? && |s.contrib[a.i]| >= |s.ops| then [a.op] else [])
      && forall i :: 0 <= i < s.n ==> s'.contrib[i] == s.contrib[i] + (if a.DoEnter? && a.i == i then [a.send] else [])
  {
    match a
    case DoElement(i) => ElementAdds(s, i); hide ElementStep;
    case DoSwap(i) => SwapAdds(s, i); hide SwapStep;
    case DoElect(i) => ElectAdds(s, i); hide ElectStep;
    case DoFill(i, got) => FillAdds(s, i, got); hide FillStep;
    case DoAnnounce(i) => AnnounceAdds(s, i); hide AnnounceStep;
    case DoDone(i) => DoneAdds(s, i); hide DoneStep;
    case DoClear(i) => ClearAdds(s, i); hide ClearStep;
    case DoReopen(i) => ReopenAdds(s, i); hide ReopenStep;
    case _ =>
  }

  /** A step changes nothing of what `HistoryGrows` is about. */
  predicate AddsNothing(s: State, s': State) requires Sized(s) {
    Sized(s') && s'.n == s.n && s'.mem == s.mem && s'.width == s.width && s'.ops == s.ops && s'.contrib == s.contrib
  }

  lemma ElectAdds(s: State, i: nat)
    requires Known(s, i)
    ensures AddsNothing(s, ElectStep(s, i))
  { }

  lemma FillAdds(s: State, i: nat, got: bool)
    requires Known(s, i)
    ensures AddsNothing(s.(mem := s.mem + [got], width := s.width + [|s.thread[i].send|]), FillStep(s, i, got))
  { }

  lemma AnnounceAdds(s: State, i: nat)
    requires Known(s, i)
    ensures AddsNothing(s, AnnounceStep(s, i))
  { }

  lemma DoneAdds(s: State, i: nat)
    requires Known(s, i)
    ensures AddsNothing(s, DoneStep(s, i))
  { }

  lemma ClearAdds(s: State, i: nat)
    requires Known(s, i)
    ensures AddsNothing(s, ClearStep(s, i))
  { }

  lemma ReopenAdds(s: State, i: nat)
    requires Known(s, i)
    ensures AddsNothing(s, ReopenStep(s, i))
  { }

  lemma ElementAdds(s: State, i: nat)
    requires Known(s, i) && s.thread[i].pc.Element?
    ensures AddsNothing(s, ElementStep(s, i))
  { }

  lemma SwapAdds(s: State, i: nat)
    requires Enabled(s, DoSwap(i))
    ensures AddsNothing(s, SwapStep(s, i))
  { }

  lemma ToldStep(s: State, acts: seq<Action>, a: Action)
    requires Inv(s) && Told(s, acts) && Enabled(s, a)
    ensures Told(Step(s, a), acts + [a])
  {
    HistoryGrows(s, a);
    var s' := Step(s, a);
    assert (acts + [a])[..|acts|] == acts;
    forall i | 0 <= i < s.n ensures ThreadTold(s', acts + [a], i) { ThreadToldStep(s, acts, a, i); }
    WidthToldStep(s, acts, a);
    hide Step, Enabled, Inv, ThreadTold, WidthTold;
  }

  lemma ThreadToldStep(s: State, acts: seq<Action>, a: Action, i: nat)
    requires Told(s, acts) && Enabled(s, a) && i < s.n && Sized(Step(s, a))
    ensures ThreadTold(Step(s, a), acts + [a], i)
  {
    HistoryGrows(s, a);
    assert (acts + [a])[..|acts|] == acts;
    if a.DoEnter? { SameOperator(s, a); }
    hide Step, Enabled, WidthTold;
    assert ThreadTold(s, acts, i);
  }

  lemma WidthToldStep(s: State, acts: seq<Action>, a: Action)
    requires Inv(s) && Told(s, acts) && Enabled(s, a) && Sized(Step(s, a))
    ensures var s' := Step(s, a); forall k :: 0 <= k < |s'.width| ==> WidthTold(s', k)
  {
    HistoryGrows(s, a);
    var s' := Step(s, a);
    if a.DoFill? { FillWidth(s, a); }
    hide Step, Enabled, Inv, ThreadTold;
    forall k | 0 <= k < |s'.width| ensures WidthTold(s', k) {
      if k < |s.width| {
        assert WidthTold(s, k);
        var i :| 0 <= i < s.n && k < |s.contrib[i]| && s.width[k] == |s.contrib[i][k]|;
        assert k < |s'.contrib[i]| && s'.width[k] == |s'.contrib[i][k]|;
      } else {
        assert k < |s'.contrib[a.i]| && s'.width[k] == |s'.contrib[a.i][k]|;
      }
    }
  }

  lemma SameOperator(s: State, a: Action)
    requires Enabled(s, a) && a.DoEnter?
    ensures |s.contrib[a.i]| < |s.ops| ==> a.op == s.ops[|s.contrib[a.i]|]
  { }

  lemma FillWidth(s: State, a: Action)
    requires Inv(s) && Enabled(s, a) && a.DoFill?
    ensures |s.width| < |s.contrib[a.i]| && s.thread[a.i].send == s.contrib[a.i][|s.width|]
  {
    NotAllLeft(s, a.i);
    hide RoundsOk, ThreadsOk, ResultsOk, DataOk;
  }

  /** The history of a run is what its calls were given. */
  lemma {:induction false} HistoryIsCalls(n: nat, run: seq<State>, acts: seq<Action>)
    requires IsTrace(n, run, acts)
    ensures Told(run[|acts|], acts) && run[|acts|].n == n
  {
    hide Step, Enabled, Told;
    if acts == [] {
      FirstTold(n);
    } else {
      var m := |acts| - 1;
      assert IsTrace(n, run[..m + 1], acts[..m]);
      HistoryIsCalls(n, run[..m + 1], acts[..m]);
      assert Enabled(run[m], acts[m]) && run[m + 1] == Step(run[m], acts[m]);
      TraceIsRun(n, run, acts);
      RunKeeps(n, run, m);
      hide Inv, IsTrace, IsRun;
      ToldStep(run[m], acts[..m], acts[m]);
      HistoryGrows(run[m], acts[m]);
      assert acts[..m] + [acts[m]] == acts;
    }
  }

  lemma FirstTold(n: nat)
    requires n >= 2
    ensures Told(INIT(n), []) && INIT(n).n == n
  { }

  // ---------- What the calls give ----------

  /** All threads are in call `k` or past it, and named the same operator. */
  ghost predicate SameCall(n: nat, acts: seq<Action>, i: nat, k: nat) {
    && i < n && k < |Memories(acts)| && k < |Named(acts, i)|
    && forall j :: 0 <= j < n ==> k < |Sends(acts, j)| && k < |Named(acts, j)| && Named(acts, j)[k] == Named(acts, i)[k]
  }

  /** Thread `i` got, element by element, the fold of what all threads brought, as far as two of them go. */
  ghost predicate Delivered(n: nat, acts: seq<Action>, i: nat, k: nat, out: Shared) requires SameCall(n, acts, i, k) {
    && (out.Res? <==> Memories(acts)[k])
    && (out.Res? ==>
         && (forall e :: 0 <= e < |out.vals| ==>
               out.vals[e] == Fold(Named(acts, i)[k], Column(n, Brought(n, acts), Named(acts, i)[k], k, e)))
         && (exists j :: 0 <= j < n && |out.vals| == Min(|Sends(acts, i)[k]|, |Sends(acts, j)[k]|)))
  }

  lemma DeliversAt(n: nat, s: State, acts: seq<Action>, i: nat, k: nat)
    requires Reachable(n, s) && Told(s, acts) && s.n == n && i < |s.result| && k < |s.result[i]|
    ensures SameCall(n, acts, i, k) && Delivered(n, acts, i, k, s.result[i][k])
  {
    hide Reachable, Fold, Sends, Named, Memories, Column;
    KthResult(n, s, i, k);
    forall j | 0 <= j < n ensures k < |Sends(acts, j)| && k < |Named(acts, j)| && Named(acts, j)[k] == s.ops[k] {
      assert ThreadTold(s, acts, j) && k < |s.contrib[j]|;
    }
    assert SameCall(n, acts, i, k);
    forall j | 0 <= j < n ensures s.contrib[j] == Sends(acts, j) { assert ThreadTold(s, acts, j); }
    assert s.contrib == Brought(n, acts);
    assert WidthTold(s, k);
    var op := Named(acts, i)[k];
    assert op == s.ops[k];
    assert Delivered(n, acts, i, k, s.result[i][k]);
  }

  /**
   * The `k`-th call, from the arguments of all threads: with memory for the
   * data of the round every thread gets, element by element, the fold of what
   * all threads brought to their `k`-th call with the operator that they
   * named; without memory it gets nothing.
   */
  lemma ReductionDelivers(n: nat, run: seq<State>, acts: seq<Action>, i: nat, k: nat)
    requires IsTrace(n, run, acts) && i < |run[|acts|].result| && k < |run[|acts|].result[i]|
    ensures SameCall(n, acts, i, k) && Delivered(n, acts, i, k, run[|acts|].result[i][k])
  {
    HistoryIsCalls(n, run, acts);
    TraceIsRun(n, run, acts);
    hide IsRun, Step, Enabled, Told;
    assert Reachable(n, run[|acts|]);
    DeliversAt(n, run[|acts|], acts, i, k);
  }

  /** The code of a thread's `k`-th call is that of the memory for the data of the round. */
  lemma CodeReturned(n: nat, run: seq<State>, acts: seq<Action>, i: nat, k: nat)
    requires IsTrace(n, run, acts) && i < |run[|acts|].result| && k < |run[|acts|].result[i]|
    ensures i < |run[|acts|].codes| && k < |run[|acts|].codes[i]| && k < |Memories(acts)|
    ensures run[|acts|].codes[i][k] == if Memories(acts)[k] then 0 else -2
  {
    HistoryIsCalls(n, run, acts);
    TraceIsRun(n, run, acts);
    hide IsTrace, IsRun, Step, Enabled, Memories;
    assert Reachable(n, run[|acts|]);
    hide Reachable;
    CodeTells(n, run[|acts|], i, k);
  }

  /** No data are lost: a sub-object has data only while its round is in use, and before the last thread gave them back. */
  lemma NoDataLost(n: nat, s: State, p: nat)
    requires Reachable(n, s) && p < 2
    ensures |s.sub| == 2
    ensures s.sub[p].data.Res? ==> exists k: nat :: k < |s.stage| && p == SubOf(k) && (s.stage[k].Filled? || s.stage[k].Running? || s.stage[k].Clearing?)
  {
    ReachableInv(n, s);
    var c := Now(s);
    hide ThreadsOk, ResultsOk, DataOk;
    if s.sub[p].data.Res? {
      var k := if p == SubOf(c) then c else c - 1;
      assert k >= 0 && p == SubOf(k) && SubOk(s, k, s.sub[p]);
    }
  }

  // ---------- Every step brings a thread on ----------

  /** How far a thread is from the end of its call */
  function Distance(t: Thread): int {
    var m := 2 * |t.send|;
    match t.pc
    case Away => 0
    case Switch => 1
    case Check => 2
    case Reopen => 3
    case Clear => 4
    case Done => 5
    case Copy => 6
    case Gather => 7
    case Count => 8
    case Announce => 8
    case Fill => 9
    case Element(e) => 9 + m - 2 * e
    case Swap(e, _) => 8 + m - 2 * e
    case Wait => 10 + m
    case Elect => 11 + m
    case Test => 12 + m
  }

  /** Another thread wrote the element since the thread read it. */
  predicate ElementChanged(s: State, a: Action) requires Enabled(s, a) {
    a.DoSwap? && Mine(s, a.i).data.vals[s.thread[a.i].pc.e] != s.thread[a.i].pc.seen
  }

  /** Thread `i` is nearer to the end of its call, and the others stay where they are. */
  ghost predicate Nearer(s: State, s': State, i: nat) requires Known(s, i) {
    && |s'.thread| == |s.thread|
    && Distance(s'.thread[i]) < Distance(s.thread[i])
    && Others(s, s', i)
  }

  ghost predicate Others(s: State, s': State, i: nat) requires Known(s, i) && |s'.thread| == |s.thread| {
    forall j :: 0 <= j < s.n && j != i ==> s'.thread[j] == s.thread[j]
  }

  lemma ElementAdvances(s: State, i: nat)
    requires Enabled(s, DoElement(i)) && s.thread[i].pc.e <= |s.thread[i].send|
    ensures Nearer(s, ElementStep(s, i), i)
  { }

  lemma SwapAdvances(s: State, i: nat)
    requires Enabled(s, DoSwap(i))
    ensures var s' := SwapStep(s, i); |s'.thread| == |s.thread| && Others(s, s', i)
    ensures Mine(s, i).data.vals[s.thread[i].pc.e] != s.thread[i].pc.seen ==> SwapStep(s, i).thread[i].pc == Element(s.thread[i].pc.e)
    ensures Nearer(s, SwapStep(s, i), i) <==> Mine(s, i).data.vals[s.thread[i].pc.e] == s.thread[i].pc.seen
  { }

  lemma DoneAdvances(s: State, i: nat)
    requires Enabled(s, DoDone(i))
    ensures Nearer(s, DoneStep(s, i), i)
  { }

  lemma ResetAdvances(s: State, a: Action)
    requires Enabled(s, a) && (a.DoClear? || a.DoReopen?)
    ensures Nearer(s, Step(s, a), a.i)
  { }

  lemma FirstAdvances(s: State, a: Action)
    requires Enabled(s, a) && (a.DoElect? || a.DoFill? || a.DoAnnounce?)
    ensures Nearer(s, Step(s, a), a.i)
  { }

  lemma LastAdvances(s: State, a: Action)
    requires Enabled(s, a) && (a.DoSwitch? || a.DoCopy? || a.DoCount?)
    ensures Nearer(s, Step(s, a), a.i)
  { }

  lemma StepAdvances(s: State, a: Action)
    requires Enabled(s, a) && !a.DoEnter? && (s.thread[a.i].pc.Element? ==> s.thread[a.i].pc.e <= |s.thread[a.i].send|)
    ensures |Step(s, a).thread| == |s.thread| && Others(s, Step(s, a), a.i)
    ensures Nearer(s, Step(s, a), a.i) <==> !ElementChanged(s, a)
    ensures ElementChanged(s, a) ==> Step(s, a).thread[a.i].pc == Element(s.thread[a.i].pc.e)
  {
    match a
    case DoElement(i) => ElementAdvances(s, i); hide ElementStep;
    case DoSwap(i) => SwapAdvances(s, i); hide SwapStep;
    case DoElect(_) => FirstAdvances(s, a); hide ElectStep;
    case DoFill(_, _) => FirstAdvances(s, a); hide FillStep;
    case DoAnnounce(_) => FirstAdvances(s, a); hide AnnounceStep;
    case DoDone(i) => DoneAdvances(s, i); hide DoneStep;
    case DoClear(_) => ResetAdvances(s, a); hide ClearStep;
    case DoReopen(_) => ResetAdvances(s, a); hide ReopenStep;
    case DoSwitch(_) => LastAdvances(s, a); hide SwitchStep;
    case DoCopy(_) => LastAdvances(s, a); hide CopyStep;
    case DoCount(_) => LastAdvances(s, a); hide CountStep;
    case _ =>
  }

  lemma ElementInside(s: State, i: nat)
    requires Inv(s) && i < s.n
    ensures s.thread[i].pc.Element? ==> s.thread[i].pc.e <= |s.thread[i].send|
  {
    assert ThreadOk(s, i);
    hide RoundsOk, ThreadsOk, ResultsOk;
  }

  /**
   * Every step of a thread brings it nearer to the end of its call, unless its
   * compare-and-swap finds that another thread wrote the element, which it then
   * reads again; and no thread moves another one.
   */
  lemma ThreadAdvances(n: nat, s: State, a: Action)
    requires Reachable(n, s) && Enabled(s, a) && !a.DoEnter?
    ensures |Step(s, a).thread| == |s.thread| && Others(s, Step(s, a), a.i)
    ensures Nearer(s, Step(s, a), a.i) <==> !ElementChanged(s, a)
    ensures ElementChanged(s, a) ==> Step(s, a).thread[a.i].pc == Element(s.thread[a.i].pc.e)
  {
    ReachableInv(n, s);
    ElementInside(s, a.i);
    hide Inv, Enabled, Step, Nearer, Others;
    StepAdvances(s, a);
  }

  /** And if nobody writes the element between that read and the compare-and-swap, it succeeds. */
  lemma RereadWins(s: State, i: nat)
    requires Enabled(s, DoElement(i)) && Step(s, DoElement(i)).thread[i].pc.Swap?
    ensures var t := Step(s, DoElement(i)); Enabled(t, DoSwap(i)) && !ElementChanged(t, DoSwap(i))
  { }
}
