/**
 * `MPI_Barrier` over several machines (`mpi_barrier.c`): the barrier of the
 * machine, then thread 0 of every machine meets in `netq_barrier`, then the
 * barrier of the machine again.  With one machine the first barrier is all.
 *
 * `netq_barrier` is not part of this model: it is taken as a barrier among the
 * threads 0, which none leaves for the `k`-th time before all have entered it
 * for the `k`-th time.
 */
module MpiBarrier {
  import opened Counting
  import opened Barrier

  /** The barrier of each machine, and how often its thread 0 entered and left `netq_barrier` */
  datatype Global = Global(bar: seq<State>, netIn: seq<nat>, netOut: seq<nat>)

  datatype Move = Local(m: nat, a: Action) | NetEnter(m: nat) | NetLeave(m: nat)

  predicate Shape(g: Global) {
    |g.bar| == |g.netIn| == |g.netOut| && |g.bar| > 0 && forall m :: 0 <= m < |g.bar| ==> Sized(g.bar[m]) && g.bar[m].n >= 1
  }

  predicate Single(g: Global) { |g.bar| == 1 }

  /**
   * What the text of `MPI_Barrier` lets a thread do next.  With several
   * machines a thread alternates between the first and the second `bar_wait`
   * of a call, and thread 0 is in `netq_barrier` in between.
   */
  predicate CanMove(g: Global, v: Move) {
    Shape(g) && v.m < |g.bar| &&
    var b := g.bar[v.m];
    match v
    case Local(m, a) =>
      && Enabled(b, a)
      && (a.Enter? && !Single(g) && a.i == 0 && b.entered[0] % 2 == 1 ==> g.netOut[m] == b.entered[0] / 2 + 1)
    case NetEnter(m) => !Single(g) && b.pc[0].Out? && b.entered[0] % 2 == 1 && g.netIn[m] == g.netOut[m] == b.entered[0] / 2
    case NetLeave(m) => !Single(g) && g.netIn[m] == g.netOut[m] + 1 && forall q :: 0 <= q < |g.bar| ==> g.netIn[q] > g.netOut[m]
  }

  function Moved(g: Global, v: Move): Global
    requires CanMove(g, v)
  {
    match v
    case Local(m, a) => g.(bar := g.bar[m := Step(g.bar[m], a)])
    case NetEnter(m) => g.(netIn := g.netIn[m := g.netIn[m] + 1])
    case NetLeave(m) => g.(netOut := g.netOut[m := g.netOut[m] + 1])
  }

  /** `sizes[m]` threads on machine `m` */
  function Start(sizes: seq<nat>): Global
    requires forall m :: 0 <= m < |sizes| ==> sizes[m] >= 1
  { Global(seq(|sizes|, m requires 0 <= m < |sizes| => INIT(sizes[m])), seq(|sizes|, m => 0), seq(|sizes|, m => 0)) }

  ghost predicate NextGlobal(g: Global, g': Global) { exists v :: CanMove(g, v) && g' == Moved(g, v) }

  ghost predicate IsGlobalRun(sizes: seq<nat>, run: seq<Global>) {
    && |sizes| > 0 && (forall m :: 0 <= m < |sizes| ==> sizes[m] >= 1)
    && run != [] && run[0] == Start(sizes) && forall t :: 0 <= t < |run| - 1 ==> NextGlobal(run[t], run[t + 1])
  }

  // ---------- Invariant ----------

  /** Thread 0 meets the others between its two local barriers. */
  predicate NetOk(g: Global, m: nat) requires Shape(g) && m < |g.bar| {
    var b := g.bar[m];
    && g.netOut[m] <= g.netIn[m] <= g.netOut[m] + 1
    && b.entered[0] <= 2 * g.netOut[m] + 1
    && 2 * g.netIn[m] <= b.passed[0] + 1
  }

  /** Whoever left `netq_barrier` for the `k`-th time has seen all enter it for the `k`-th time. */
  predicate Met(g: Global, m: nat, q: nat) requires Shape(g) && m < |g.bar| && q < |g.bar| { g.netOut[m] <= g.netIn[q] }

  ghost predicate GlobalInv(g: Global) {
    && Shape(g)
    && (forall m :: 0 <= m < |g.bar| ==> Inv(g.bar[m]))
    && (!Single(g) ==> forall m :: 0 <= m < |g.bar| ==> NetOk(g, m))
    && (!Single(g) ==> forall m, q :: 0 <= m < |g.bar| && 0 <= q < |g.bar| ==> Met(g, m, q))
  }

  /** What a move keeps between the counts of a machine and of `netq_barrier` */
  lemma NetKept(g: Global, v: Move, m: nat)
    requires GlobalInv(g) && CanMove(g, v) && !Single(g) && m < |g.bar|
    ensures Shape(Moved(g, v)) && NetOk(Moved(g, v), m)
  {
    if v.Local? { LocalNet(g.bar[v.m], v.a); }
    assert Inv(g.bar[v.m]) && ThreadOk(g.bar[v.m], 0);
    assert g.bar[v.m].pc[0].Out? ==> g.bar[v.m].passed[0] == g.bar[v.m].entered[0];
    hide Step, Inv, ThreadOk;
    assert NetOk(g, m);
  }

  lemma MoveKeeps(g: Global, v: Move)
    requires GlobalInv(g) && CanMove(g, v)
    ensures GlobalInv(Moved(g, v))
  {
    var g' := Moved(g, v);
    if v.Local? {
      StepKeeps(g.bar[v.m], v.a);
      LocalNet(g.bar[v.m], v.a);
    }
    hide Step, Inv, NetOk;
    if !Single(g) {
      forall m | 0 <= m < |g.bar| ensures NetOk(g', m) { NetKept(g, v, m); }
      forall m, q | 0 <= m < |g.bar| && 0 <= q < |g.bar| ensures Met(g', m, q) {
        assert Met(g, m, q);
        assert NetOk(g, q) by { assert !Single(g); }
      }
    }
  }

  /** What a step of the local barrier does to the counts of its thread 0 */
  lemma LocalNet(b: State, a: Action)
    requires Inv(b) && Enabled(b, a)
    ensures var b' := Step(b, a);
            && Sized(b') && b'.n == b.n
            && b.passed[0] <= b'.passed[0]
            && b'.entered[0] == b.entered[0] + (if a == Enter(0) then 1 else 0)
  {
    StepKeeps(b, a);
  }

  lemma {:induction false} GlobalRunKeeps(sizes: seq<nat>, run: seq<Global>, t: nat)
    requires IsGlobalRun(sizes, run) && t < |run|
    ensures GlobalInv(run[t]) && |run[t].bar| == |sizes|
  {
    if t == 0 {
      forall m | 0 <= m < |sizes| ensures Inv(INIT(sizes[m])) { InitOk(sizes[m]); }
    } else {
      GlobalRunKeeps(sizes, run, t - 1);
      assert NextGlobal(run[t - 1], run[t - 1 + 1]);
      var v :| CanMove(run[t - 1], v) && run[t] == Moved(run[t - 1], v);
      MoveKeeps(run[t - 1], v);
    }
  }

  // ---------- The promise ----------

  ghost predicate ReachableGlobal(sizes: seq<nat>, g: Global) {
    exists run, t: nat :: IsGlobalRun(sizes, run) && t < |run| && run[t] == g
  }

  /** How many calls of `MPI_Barrier` thread `i` of machine `m` has begun, and how many it has come back from */
  function Begun(g: Global, m: nat, i: nat): nat
    requires Shape(g) && m < |g.bar| && i < g.bar[m].n
  { if Single(g) then g.bar[m].entered[i] else (g.bar[m].entered[i] + 1) / 2 }

  function Ended(g: Global, m: nat, i: nat): nat
    requires Shape(g) && m < |g.bar| && i < g.bar[m].n
  { if Single(g) then g.bar[m].passed[i] else g.bar[m].passed[i] / 2 }

  /** No thread on any machine returns from its `k`-th `MPI_Barrier` before every thread on every machine has begun its `k`-th. */
  lemma GlobalBarrier(sizes: seq<nat>, g: Global, m: nat, i: nat, q: nat, j: nat, k: nat)
    requires ReachableGlobal(sizes, g) && Shape(g)
    requires m < |g.bar| && i < g.bar[m].n && q < |g.bar| && j < g.bar[q].n
    requires Ended(g, m, i) > k
    ensures Begun(g, q, j) > k
  {
    var run, t: nat :| IsGlobalRun(sizes, run) && t < |run| && run[t] == g;
    GlobalRunKeeps(sizes, run, t);
    if Single(g) {
      PassedAfterAll(g.bar[m], i, j, k);
    } else {
      // thread `i` is out of the second barrier of call `k`, so thread 0 of its machine has entered it
      PassedAfterAll(g.bar[m], i, 0, 2 * k + 1);
      assert NetOk(g, m) && NetOk(g, q) && Met(g, m, q);
      assert g.netOut[m] > k && g.netIn[q] > k;
      // thread 0 of machine `q` is out of the first barrier of call `k`, so thread `j` has entered it
      PassedAfterAll(g.bar[q], 0, j, 2 * k);
    }
  }
}
