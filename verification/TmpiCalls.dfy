/**
 * `tmpi_Allreduce` seen from outside: the return codes and the result buffers
 * from what the threads passed to their calls, over whole runs.
 */
module TmpiCalls {
  import opened ReduceOps
  import opened TmpiAllreduce
  import R = Reduce
  import B = Bcast
  import RC = ReduceCalls
  import BC = BcastCalls

  ghost predicate IsTrace(n: nat, run: seq<State>, acts: seq<Action>) {
    && n >= 2 && |run| == |acts| + 1 && run[0] == INIT(n)
    && forall t :: 0 <= t < |acts| ==> Enabled(run[t], acts[t]) && run[t + 1] == Step(run[t], acts[t])
  }

  /** The steps of the reduction, and those of the broadcast */
  function ReducePart(acts: seq<Action>): seq<R.Action> {
    if acts == [] then [] else
    var a := acts[|acts| - 1];
    ReducePart(acts[..|acts| - 1]) + (if a.InReduce? then [a.ra] else [])
  }

  function BcastPart(acts: seq<Action>): seq<B.Action> {
    if acts == [] then [] else
    var a := acts[|acts| - 1];
    BcastPart(acts[..|acts| - 1]) + (if a.InBcast? then [a.ba] else [])
  }

  lemma ReduceExtends(n: nat, rr: seq<R.State>, acts: seq<R.Action>, a: R.Action)
    requires RC.IsTrace(n, 0, rr, acts) && R.Enabled(rr[|rr| - 1], a)
    ensures RC.IsTrace(n, 0, rr + [R.Step(rr[|rr| - 1], a)], acts + [a])
  {
    hide R.Step, R.Enabled;
  }

  lemma BcastExtends(n: nat, br: seq<B.State>, acts: seq<B.Action>, a: B.Action)
    requires BC.IsTrace(n, br, acts) && B.Enabled(br[|br| - 1], a)
    ensures BC.IsTrace(n, br + [B.Step(br[|br| - 1], a)], acts + [a])
  {
    hide B.Step, B.Enabled;
  }

  lemma FrontIsTrace(n: nat, run: seq<State>, acts: seq<Action>)
    requires IsTrace(n, run, acts) && acts != []
    ensures IsTrace(n, run[..|acts|], acts[..|acts| - 1])
    ensures Enabled(run[|acts| - 1], acts[|acts| - 1]) && run[|acts|] == Step(run[|acts| - 1], acts[|acts| - 1])
  {
    hide Step, Enabled;
    assert Enabled(run[|acts| - 1], acts[|acts| - 1]) && run[|acts| - 1 + 1] == Step(run[|acts| - 1], acts[|acts| - 1]);
  }

  /** Each of the two queues sees a run of its own: the reduction */
  lemma {:induction false} ReduceProjects(n: nat, run: seq<State>, acts: seq<Action>) returns (rr: seq<R.State>)
    requires IsTrace(n, run, acts)
    ensures RC.IsTrace(n, 0, rr, ReducePart(acts)) && |rr| > 0 && rr[|rr| - 1] == run[|acts|].r
  {
    hide R.Step, B.Step, R.Enabled, B.Enabled, R.INIT, B.INIT;
    if acts == [] {
      rr := [R.INIT(n, 0)];
    } else {
      FrontIsTrace(n, run, acts);
      hide RC.IsTrace, IsTrace;
      rr := ReduceProjects(n, run[..|acts|], acts[..|acts| - 1]);
      var s, a := run[|acts| - 1], acts[|acts| - 1];
      if a.InReduce? {
        ReduceExtends(n, rr, ReducePart(acts[..|acts| - 1]), a.ra);
        rr := rr + [R.Step(s.r, a.ra)];
      }
    }
  }

  /** and the broadcast */
  lemma {:induction false} BcastProjects(n: nat, run: seq<State>, acts: seq<Action>) returns (br: seq<B.State>)
    requires IsTrace(n, run, acts)
    ensures BC.IsTrace(n, br, BcastPart(acts)) && |br| > 0 && br[|br| - 1] == run[|acts|].b
  {
    hide R.Step, B.Step, R.Enabled, B.Enabled, R.INIT, B.INIT;
    if acts == [] {
      br := [B.INIT(n)];
    } else {
      FrontIsTrace(n, run, acts);
      hide BC.IsTrace, IsTrace;
      br := BcastProjects(n, run[..|acts|], acts[..|acts| - 1]);
      var s, a := run[|acts| - 1], acts[|acts| - 1];
      if a.InBcast? {
        BcastExtends(n, br, BcastPart(acts[..|acts| - 1]), a.ba);
        br := br + [B.Step(s.b, a.ba)];
      }
    }
  }

  lemma {:induction false} TraceIsRun(n: nat, run: seq<State>, acts: seq<Action>)
    requires IsTrace(n, run, acts)
    ensures IsRun(n, run) && Reachable(run[|acts|])
  {
    hide R.Step, B.Step, R.Enabled, B.Enabled;
    forall t | 0 <= t < |run| - 1 ensures Next(run[t], run[t + 1]) { assert Enabled(run[t], acts[t]) && run[t + 1] == Step(run[t], acts[t]); }
  }

  /** What the queues recorded is what the calls were given. */
  lemma HistoryIsCalls(n: nat, run: seq<State>, acts: seq<Action>)
    requires IsTrace(n, run, acts)
    ensures RC.Told(run[|acts|].r, ReducePart(acts)) && run[|acts|].r.n == n
    ensures BC.RootTold(run[|acts|].b, BC.Payloads(BcastPart(acts)), BC.Memories(BcastPart(acts)))
  {
    hide R.Step, B.Step, R.Enabled, B.Enabled, RC.Told, BC.RootTold, RC.IsTrace, BC.IsTrace;
    var rr := ReduceProjects(n, run, acts);
    var br := BcastProjects(n, run, acts);
    RC.HistoryIsCalls(n, 0, rr, ReducePart(acts));
    BC.HistoryIsCalls(n, br, BcastPart(acts));
    assert |rr| == |ReducePart(acts)| + 1 && |br| == |BcastPart(acts)| + 1 by { TraceLengths(n, rr, br, ReducePart(acts), BcastPart(acts)); }
  }

  lemma TraceLengths(n: nat, rr: seq<R.State>, br: seq<B.State>, ra: seq<R.Action>, ba: seq<B.Action>)
    requires RC.IsTrace(n, 0, rr, ra) && BC.IsTrace(n, br, ba)
    ensures |rr| == |ra| + 1 && |br| == |ba| + 1
  { }

  /** All threads brought `count` elements to their `k`-th call. */
  predicate SameCount(n: nat, ra: seq<R.Action>, k: nat, count: nat) {
    forall x :: 0 <= x < n && k < |RC.Sends(ra, x)| ==> |RC.Sends(ra, x)[k]| == count
  }

  /** Element by element the fold, with the operator they named, of what all threads brought to their `k`-th call */
  ghost predicate IsFold(n: nat, ra: seq<R.Action>, k: nat, count: nat, buf: seq<int>)
    requires RC.SameCall(n, 0, ra, k)
  {
    |buf| == count && forall e :: 0 <= e < count ==>
      buf[e] == Fold(RC.Named(ra, 0)[k], Column(n, RC.Brought(n, ra), RC.Named(ra, 0)[k], k, e))
  }

  /** In the recorded contributions and operators as in the arguments of the calls */
  lemma FoldOfCalls(n: nat, s: State, ra: seq<R.Action>, k: nat, count: nat, buf: seq<int>)
    requires n >= 2 && Sized(s) && s.r.n == n && RC.Told(s.r, ra) && k < |s.r.ops| && k < |s.r.mem|
    requires forall i :: 0 <= i < n ==> k < |s.r.contrib[i]|
    ensures RC.SameCall(n, 0, ra, k)
    ensures IsAllreduce(s, k, count, buf) ==> IsFold(n, ra, k, count, buf)
  {
    hide Fold, RC.Sends, RC.Named, RC.Memories, Column;
    forall i | 0 <= i < n ensures s.r.contrib[i] == RC.Sends(ra, i) && k < |RC.Named(ra, i)| && RC.Named(ra, i)[k] == s.r.ops[k] {
      assert RC.ThreadTold(s.r, ra, i);
    }
    assert s.r.contrib == RC.Brought(n, ra);
  }

  lemma CountsTold(n: nat, s: State, ra: seq<R.Action>, k: nat, count: nat)
    requires Sized(s) && s.r.n == n && RC.Told(s.r, ra) && SameCount(n, ra, k, count)
    ensures forall x :: 0 <= x < n && k < |s.r.contrib[x]| ==> |s.r.contrib[x][k]| == count
  {
    forall x | 0 <= x < n ensures s.r.contrib[x] == RC.Sends(ra, x) { assert RC.ThreadTold(s.r, ra, x); }
  }

  /**
   * Over whole runs, from the arguments alone: the `k`-th `tmpi_Allreduce` of
   * every thread returns ERR_BUFFER exactly if there was no memory in the
   * reduction, else ERR_INTERN exactly if thread 0 had none in the broadcast,
   * else success, and then the thread's buffer holds the fold of what all
   * threads passed to their `k`-th call.
   */
  lemma CallsDeliver(n: nat, run: seq<State>, acts: seq<Action>, i: nat, k: nat, count: nat)
    requires IsTrace(n, run, acts) && Sized(run[|acts|]) && Through(run[|acts|], i, k)
    requires SameCount(n, ReducePart(acts), k, count)
    ensures var ra, ba, s := ReducePart(acts), BcastPart(acts), run[|acts|];
      && RC.SameCall(n, 0, ra, k) && k < |BC.Memories(ba)|
      && CodeAt(s, i, k) == (if !RC.Memories(ra)[k] then ERR_BUFFER else if !BC.Memories(ba)[k] then ERR_INTERN else SUCCESS)
      && (CodeAt(s, i, k) == SUCCESS ==> IsFold(n, ra, k, count, BufferAt(s, i, k)))
  {
    var s := run[|acts|];
    HistoryIsCalls(n, run, acts);
    TraceIsRun(n, run, acts);
    CountsTold(n, s, ReducePart(acts), k, count);
    hide IsTrace, IsRun, Reachable, RC.Sends, RC.Named, RC.Memories, BC.Memories, BC.Payloads, IsAllreduce, SameCount;
    CodeTells(s, i, k, count);
    FoldOfCalls(n, s, ReducePart(acts), k, count, BufferAt(s, i, k));
  }
}
