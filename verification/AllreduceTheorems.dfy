/** What the double-buffered allreduce promises, in every state of every run. */
module AllreduceTheorems {
  import opened Basics
  import opened Counting
  import opened ReduceOps
  import opened Allreduce
  import opened AllreduceProof
  import opened AllreduceSteps

  ghost predicate Reachable(n: nat, s: State) {
    exists run, t: nat :: IsRun(n, run) && t < |run| && run[t] == s
  }

  lemma ReachableInv(n: nat, s: State)
    requires Reachable(n, s)
    ensures Inv(s) && s.n == n
  {
    var run, t: nat :| IsRun(n, run) && t < |run| && run[t] == s;
    RunKeeps(n, run, t);
  }

  /**
   * Every thread's `k`-th call gives it, element by element, the fold of all
   * `n` contributions to the `k`-th call, and the code 0; nothing and the code
   * -2 if there was no memory for the data of the round.
   */
  lemma KthResult(n: nat, s: State, i: nat, k: nat)
    requires Reachable(n, s) && i < |s.result| && k < |s.result[i]|
    ensures k < |s.ops| && |s.contrib| == n && i < n && forall j :: 0 <= j < n ==> k < |s.contrib[j]|
    ensures k < |s.width| && k < |s.mem| && (s.result[i][k].Res? <==> s.mem[k])
    ensures s.mem[k] ==> |s.result[i][k].vals| == Min(|s.contrib[i][k]|, s.width[k])
    ensures s.mem[k] ==> forall e :: 0 <= e < |s.result[i][k].vals| ==>
              s.result[i][k].vals[e] == Fold(s.ops[k], Column(n, s.contrib, s.ops[k], k, e))
  {
    ReachableInv(n, s);
    assert ResultAt(s, i, k);
    AboveAll(s.past, k);
    forall j | 0 <= j < n ensures k < |s.contrib[j]| { assert ThreadOk(s, j); }
    if s.mem[k] {
      var vals := s.result[i][k].vals;
      forall e | 0 <= e < |vals| ensures vals[e] == Fold(s.ops[k], Column(n, s.contrib, s.ops[k], k, e)) {
        assert Col(s, k, e) == Column(n, s.contrib, s.ops[k], k, e);
      }
    }
  }

  /** The return code tells whether there is a result, and it is the same for all threads. */
  lemma CodeTells(n: nat, s: State, i: nat, k: nat)
    requires Reachable(n, s) && i < |s.result| && k < |s.result[i]|
    ensures |s.codes| == |s.result| && |s.codes[i]| == |s.result[i]| && k < |s.mem|
    ensures s.codes[i][k] == if s.mem[k] then 0 else -2
  {
    ReachableInv(n, s);
    assert ThreadOk(s, i);
    hide RoundsOk, ThreadsOk, ResultsOk, SubOk, StageTie, AtElementOk;
  }

  /** All threads get the same: where two have a result of a call, it is the same as far as both go. */
  lemma AllAgree(n: nat, s: State, i: nat, j: nat, k: nat, e: nat)
    requires Reachable(n, s) && i < |s.result| && j < |s.result| && k < |s.result[i]| && k < |s.result[j]|
    ensures s.result[i][k].Res? <==> s.result[j][k].Res?
    ensures s.result[i][k].Res? && e < |s.result[i][k].vals| && e < |s.result[j][k].vals|
            ==> s.result[i][k].vals[e] == s.result[j][k].vals[e]
  {
    KthResult(n, s, i, k);
    KthResult(n, s, j, k);
  }

  /**
   * Whenever a thread combines or copies, the sub-object it works on belongs
   * to its own round and holds the fold of what was contributed to that round.
   */
  lemma OwnRoundOnly(n: nat, s: State, i: nat)
    requires Reachable(n, s) && i < |s.thread|
    requires s.thread[i].pc.Combining() || s.thread[i].pc.Copy?
    ensures SizesOk(s) && i < s.n && |s.contrib[i]| > 0
    ensures |s.past| == n
    ensures var k := |s.contrib[i]| - 1; s.thread[i].sub == SubOf(k) && DataOk(s, k, s.sub[SubOf(k)].data)
    ensures s.thread[i].pc.Copy? ==> forall j :: 0 <= j < n ==> s.past[j] > |s.contrib[i]| - 1
  {
    ReachableInv(n, s);
    NotAllLeft(s, i);
    AboveAll(s.past, |s.contrib[i]| - 1);
  }

  /**
   * The pointer is switched exactly once per round: a thread that is back from
   * its `m` calls finds that there were `m` switches, however many threads
   * raced for them, and a switch leads to a sub-object that was reset.
   */
  lemma SwitchedOncePerRound(n: nat, s: State, i: nat)
    requires Reachable(n, s) && i < |s.thread|
    ensures |s.contrib| == |s.thread| && |s.sub| == 2 && s.subp == SubOf(|s.stage| - 1)
    ensures s.thread[i].pc.Away? ==> |s.stage| - 1 == |s.contrib[i]|
    ensures s.thread[i].pc.Switch? ==> |s.contrib[i]| - 1 <= |s.stage| - 1 <= |s.contrib[i]|
    ensures s.thread[i].pc.Switch? ==> Known(s, i) && (s.subp == s.thread[i].sub <==> |s.stage| == |s.contrib[i]|)
    ensures s.thread[i].pc.Switch? && s.subp == s.thread[i].sub ==> s.sub[1 - s.subp] == Sub(-1, 0, Nothing)
  {
    ReachableInv(n, s);
    assert ThreadOk(s, i);
    if s.thread[i].pc.Switch? && s.subp == s.thread[i].sub { OtherClean(s, i); }
  }

  /** The next step of thread `i`, by where it stands */
  function NextOf(s: State, i: nat): Action
    requires Known(s, i)
  {
    match s.thread[i].pc
    case Away => DoEnter(i, [], if |s.contrib[i]| < |s.ops| then s.ops[|s.contrib[i]|] else SUM)
    case Test => DoTest(i)
    case Elect => DoElect(i)
    case Fill => DoFill(i, true)
    case Announce => DoAnnounce(i)
    case Wait => DoPass(i)
    case Element(_) => DoElement(i)
    case Swap(_, _) => DoSwap(i)
    case Count => DoCount(i)
    case Gather => DoGather(i)
    case Copy => DoCopy(i)
    case Done => DoDone(i)
    case Clear => DoClear(i)
    case Reopen => DoReopen(i)
    case Check => DoCheck(i)
    case Switch => DoSwitch(i)
  }

  /**
   * A thread waits only where the code waits, for the announcement or for all
   * to be counted: everywhere else its next step can be taken.
   */
  lemma StuckOnlyWaiting(n: nat, s: State, i: nat)
    requires Reachable(n, s) && i < |s.thread|
    ensures Known(s, i)
    ensures !s.thread[i].pc.Wait? && !s.thread[i].pc.Gather? ==> Enabled(s, NextOf(s, i))
  {
    ReachableInv(n, s);
    hide ThreadsOk, RoundsOk, ResultsOk, ThreadOk, SubOk, DataOk;
    if s.thread[i].pc.Swap? { DataThere(s, i); }
  }

  /** A thread that is to swap an element in finds it in the data of its round. */
  lemma DataThere(s: State, i: nat)
    requires Inv(s) && i < s.n && s.thread[i].pc.Swap?
    ensures Mine(s, i).data.Res? && s.thread[i].pc.e < |s.thread[i].send| && s.thread[i].pc.e < |Mine(s, i).data.vals|
  {
    NotAllLeft(s, i);
    hide ThreadsOk, RoundsOk, ResultsOk;
  }

  /** The first wait: until the winner of the election has announced the round. */
  lemma WaitsForAnnouncement(n: nat, s: State, i: nat)
    requires Reachable(n, s) && i < |s.thread| && s.thread[i].pc.Wait?
    ensures Known(s, i) && |s.past| == n
    ensures Enabled(s, DoPass(i)) <==> Above(s.past, Round(s, i)) > 0
  {
    ReachableInv(n, s);
    NotAllLeft(s, i);
    AboveAll(s.past, Round(s, i));
    hide ThreadsOk, RoundsOk, ResultsOk, DataOk;
  }

  /** The second wait: until all threads are counted in the round of the thread. */
  lemma WaitsForAll(n: nat, s: State, i: nat)
    requires Reachable(n, s) && i < |s.thread| && s.thread[i].pc.Gather?
    ensures i < |s.past| == n
    ensures Enabled(s, DoGather(i)) <==> forall j :: 0 <= j < n ==> s.past[j] >= s.past[i]
  {
    ReachableInv(n, s);
    NotAllLeft(s, i);
    AboveAll(s.past, Round(s, i));
    hide ThreadsOk, RoundsOk, ResultsOk, DataOk;
  }
}
