/** What the reduction queue promises, in every state of every run. */
module ReduceTheorems {
  import opened Basics
  import opened Counting
  import opened ReduceOps
  import opened Reduce
  import opened ReduceProof
  import opened ReduceRounds

  ghost predicate Reachable(n: nat, root: nat, s: State) {
    exists run, t: nat :: IsRun(n, root, run) && t < |run| && run[t] == s
  }

  lemma ReachableInv(n: nat, root: nat, s: State)
    requires Reachable(n, root, s)
    ensures Inv(s) && s.n == n && s.root == root
  {
    var run, t: nat :| IsRun(n, root, run) && t < |run| && run[t] == s;
    RunKeeps(n, root, run, t);
  }

  /**
   * The root's `k`-th call returns, element by element, the fold of all `n`
   * `k`-th contributions, each counted once, whatever the order in which the
   * threads combined them and however far the others are ahead; nothing if
   * the first thread of the round had no memory for its data.
   */
  lemma KthResult(n: nat, root: nat, s: State, k: nat)
    requires Reachable(n, root, s) && k < |s.result|
    ensures k < |s.ops| && k < |s.mem| && |s.contrib| == n && forall i :: 0 <= i < n ==> k < |s.contrib[i]|
    ensures s.result[k].Res? <==> s.mem[k]
    ensures s.mem[k] ==> forall e :: 0 <= e < |s.result[k].vals| ==>
              s.result[k].vals[e] == Fold(s.ops[k], Column(n, s.contrib, s.ops[k], k, e))
    ensures s.mem[k] ==> exists i :: 0 <= i < n && |s.result[k].vals| == Min(|s.contrib[root][k]|, |s.contrib[i][k]|)
  {
    ReachableInv(n, root, s);
    assert ResultAt(s, k);
    forall i | 0 <= i < n ensures k < |s.contrib[i]| { assert ThreadOk(s, i); }
    if s.mem[k] {
      var vals := s.result[k].vals;
      forall e | 0 <= e < |vals| ensures vals[e] == Fold(s.ops[k], Column(n, s.contrib, s.ops[k], k, e)) {
        assert Col(s, k, e) == Column(n, s.contrib, s.ops[k], k, e);
      }
      assert |vals| == Min(|s.contrib[root][k]|, |s.contrib[s.starter[k]][k]|);
    }
  }

  /** The `k`-th calls of all threads return the same code: 0 if there was memory for the data of the round, -2 if not. */
  lemma CodesAgree(n: nat, root: nat, s: State, i: nat, k: nat)
    requires Reachable(n, root, s) && i < |s.codes| && k < |s.codes[i]|
    ensures k < |s.mem| && s.codes[i][k] == if s.mem[k] then 0 else -2
  {
    ReachableInv(n, root, s);
    assert ThreadOk(s, i);
    hide Inv, KeyOk, CallOk, RoundOk, RootOk;
  }

  /** A call returns once per round: a thread that is back has one code for each of its calls. */
  lemma OneCodeEach(n: nat, root: nat, s: State, i: nat)
    requires Reachable(n, root, s) && i < |s.thread| && s.thread[i].pc.Away?
    ensures |s.codes| == |s.contrib| == n && i < n && |s.codes[i]| == |s.contrib[i]|
  {
    ReachableInv(n, root, s);
    assert ThreadOk(s, i);
    hide KeyOk, CallOk, RoundOk, ThreadsOk, ChainOk, PlacesOk, ResultsOk;
  }

  /** Value `r` is the maximum, the minimum or the wrapped sum of element `e` over all `k`-th contributions. */
  ghost predicate IsReduction(n: nat, contrib: seq<seq<seq<Int32>>>, op: Op, k: nat, e: nat, r: Int32)
    requires |contrib| == n && forall i :: 0 <= i < n ==> k < |contrib[i]| && e < |contrib[i][k]|
  {
    match op
    case MAX => (exists i :: 0 <= i < n && r == contrib[i][k][e]) && (forall i :: 0 <= i < n ==> contrib[i][k][e] <= r)
    case MIN => (exists i :: 0 <= i < n && r == contrib[i][k][e]) && (forall i :: 0 <= i < n ==> r <= contrib[i][k][e])
    case SUM => r == Wrap(Total(Column(n, contrib, SUM, k, e)))
  }

  /** When all bring `count` elements, the root gets `count` elements, each the maximum, minimum or wrapped sum. */
  lemma EqualCounts(n: nat, root: nat, s: State, k: nat, count: nat)
    requires Reachable(n, root, s) && k < |s.result| && s.result[k].Res?
    requires forall i :: 0 <= i < |s.contrib| && k < |s.contrib[i]| ==> |s.contrib[i][k]| == count
    ensures |s.result[k].vals| == count
    ensures k < |s.ops| && |s.contrib| == n && forall i :: 0 <= i < n ==> k < |s.contrib[i]| && |s.contrib[i][k]| == count
    ensures forall e :: 0 <= e < count ==> IsReduction(n, s.contrib, s.ops[k], k, e, s.result[k].vals[e])
  {
    KthResult(n, root, s, k);
    ReachableInv(n, root, s);
    hide Inv;
    forall e | 0 <= e < count ensures IsReduction(n, s.contrib, s.ops[k], k, e, s.result[k].vals[e]) {
      ElementMeans(n, s.contrib, s.ops[k], k, e);
    }
  }

  lemma ElementMeans(n: nat, contrib: seq<seq<seq<Int32>>>, op: Op, k: nat, e: nat)
    requires n > 0 && |contrib| == n && forall i :: 0 <= i < n ==> k < |contrib[i]| && e < |contrib[i][k]|
    ensures IsReduction(n, contrib, op, k, e, Fold(op, Column(n, contrib, op, k, e)))
  {
    var col := Column(n, contrib, op, k, e);
    assert forall i :: 0 <= i < n ==> col[i] == contrib[i][k][e];
    match op
    case MAX =>
      FoldIsMaximum(col);
      var i :| 0 <= i < n && col[i] == Fold(op, col);
      assert contrib[i][k][e] == Fold(op, col);
    case MIN =>
      FoldIsMinimum(col);
      var i :| 0 <= i < n && col[i] == Fold(op, col);
      assert contrib[i][k][e] == Fold(op, col);
    case SUM => FoldIsSum(col);
  }

  /** At most one thread is elected: of those who fill or announce there are never two in the same round. */
  lemma ElectedOnce(n: nat, root: nat, s: State, i: nat, j: nat)
    requires Reachable(n, root, s) && i < n && j < n
    ensures Sized(s) && s.n == n
    ensures (s.thread[i].pc.Fill? || s.thread[i].pc.Announce?) && (s.thread[j].pc.Fill? || s.thread[j].pc.Announce?) && s.past[i] == s.past[j]
            ==> i == j
  {
    ReachableInv(n, root, s);
    assert ThreadOk(s, i) && ThreadOk(s, j);
  }

  /** `avail` of a filled round is the number of threads past it, and the handle stays until the root has the result. */
  lemma AvailIsCount(n: nat, root: nat, s: State, k: nat)
    requires Reachable(n, root, s) && |s.result| <= k < |s.ids| - 1
    ensures var h := s.ids[k];
            && h in s.heap && s.heap[h].avail == Above(s.past, k) && s.heap[h].next == s.ids[k + 1]
            && k < |s.mem| && (s.heap[h].data.Res? <==> s.mem[k])
  {
    ReachableInv(n, root, s);
    assert IsLive(s, k) && ChainAt(s, k);
  }

  /** The next step of thread `i`, by where it stands */
  function NextOf(s: State, i: nat): Action
    requires Known(s, i)
  {
    match s.thread[i].pc
    case Away => DoEnter(i, [], if |s.contrib[i]| < |s.ops| then s.ops[|s.contrib[i]|] else SUM)
    case Test => DoTest(i)
    case Take => DoTake(i)
    case Elect(_) => DoElect(i)
    case Drop(_) => DoDrop(i)
    case Fill(_) => DoFill(i, true)
    case Announce(_, _) => DoAnnounce(i)
    case Wait => DoPass(i)
    case Element(_) => DoElement(i)
    case Swap(_, _) => DoSwap(i)
    case SetKey(_) => DoSetKey(i)
    case Count(_) => DoCount(i)
    case Gather(_, _, _) => DoGather(i)
    case GiveBack(_, _) => DoGiveBack(i)
  }

  /** A thread waits only in the two places where the code waits; everywhere else its next step can be taken at once. */
  lemma StuckOnlyWaiting(n: nat, root: nat, s: State, i: nat)
    requires Reachable(n, root, s) && i < n
    ensures Known(s, i) && s.n == n
    ensures !s.thread[i].pc.Wait? && !s.thread[i].pc.Gather? ==> Enabled(s, NextOf(s, i))
  {
    ReachableInv(n, root, s);
    HandlesThere(s, i);
    hide Inv, Row, Fold;
  }

  /** The handles that a thread touches next are there. */
  lemma HandlesThere(s: State, i: nat)
    requires Inv(s) && i < s.n
    ensures PoolOk(s)
    ensures s.thread[i].pc.InRound() ==> s.thread[i].cur in s.heap
    ensures s.thread[i].pc.Swap? ==> HasResult(s, i) && s.thread[i].pc.e < |s.thread[i].send| && s.thread[i].pc.e < |Vals(s, i)|
  {
    OwnRound(s, i);
    if s.pool != [] { assert AtPlace(s, s.pool[|s.pool| - 1], Pooled(|s.pool| - 1)); }
    hide PlacesOk, ChainOk, ThreadsOk, ResultsOk, Row, Fold;
  }

  /** The first wait ends when the round has been announced, the root's wait when all threads have been counted. */
  lemma WaitsFor(n: nat, root: nat, s: State, i: nat)
    requires Reachable(n, root, s) && i < n
    ensures Sized(s) && s.n == n
    ensures s.thread[i].pc.Wait? ==>
              (Enabled(s, DoPass(i)) <==> s.past[i] < |s.ids| - 1 && Above(s.past, s.past[i]) > 0)
    ensures s.thread[i].pc.Gather? ==>
              (Enabled(s, DoGather(i)) <==> forall j :: 0 <= j < n ==> s.past[j] >= s.past[i])
  {
    ReachableInv(n, root, s);
    OwnRound(s, i);
    hide PlacesOk, ChainOk, ThreadsOk, ResultsOk, Row, Fold;
    if s.thread[i].pc.Gather? { AboveAll(s.past, s.past[i] - 1); }
  }

  /** A handle is always at exactly one place. */
  lemma OnePlace(n: nat, root: nat, s: State, h: int)
    requires Reachable(n, root, s)
    ensures h in s.heap <==> exists p :: AtPlace(s, h, p)
    ensures forall p, q :: AtPlace(s, h, p) && AtPlace(s, h, q) ==> p == q
  {
    ReachableInv(n, root, s);
    if h in s.heap { assert AtPlace(s, h, s.place[h]); }
  }
}
