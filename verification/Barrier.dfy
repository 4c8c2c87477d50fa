/**
 * The barrier of the threads of one machine (`barrier.c`): two sub-barriers
 * that take turns.  `n` threads call `bar_wait` over and over; reading the
 * pointer, the locked section on arrival, and each look of a waiter at
 * `runners` are one step each, in any interleaving.
 *
 * `rounds` (the rounds completed), `entered`, `arrived` and `passed` are
 * history: no branch of a step reads them.
 */
module Barrier {
  import opened Counting

  /** Outside; entered, with the sub-barrier read; waiting on it */
  datatype Pc = Out | Entered(sub: nat) | Waiting(sub: nat)

  datatype State = State(
    n: nat, runners: seq<int>, sbp: nat, pc: seq<Pc>,
    rounds: nat, entered: seq<nat>, arrived: seq<nat>, passed: seq<nat>)

  datatype Action = Enter(i: nat) | Arrive(i: nat) | Wake(i: nat)

  predicate Sized(s: State) {
    |s.pc| == |s.entered| == |s.arrived| == |s.passed| == s.n && |s.runners| == 2 && s.sbp < 2
    && forall i :: 0 <= i < s.n ==> (s.pc[i].Out? || s.pc[i].sub < 2)
  }

  /** A waiter gets on if and only if it finds `runners == maxcnt`. */
  predicate Enabled(s: State, a: Action) {
    Sized(s) && a.i < s.n &&
    match a
    case Enter(i) => s.pc[i].Out?
    case Arrive(i) => s.pc[i].Entered?
    case Wake(i) => s.pc[i].Waiting? && s.runners[s.pc[i].sub] == s.n
  }

  function Leave(s: State, i: nat): State
    requires Sized(s) && i < s.n
  { s.(pc := s.pc[i := Out], passed := s.passed[i := s.passed[i] + 1]) }

  function ArriveStep(s: State, i: nat): State
    requires Sized(s) && i < s.n && s.pc[i].Entered?
  {
    var sub := s.pc[i].sub;
    var s1 := s.(arrived := s.arrived[i := s.arrived[i] + 1]);
    if s.runners[sub] == 1 then
      // the last thread to reach the barrier
      var s2 := Leave(s1, i).(rounds := s.rounds + 1);
      if s.n != 1 then s2.(runners := s.runners[sub := s.n], sbp := 1 - s.sbp) else s2
    else
      s1.(runners := s.runners[sub := s.runners[sub] - 1], pc := s.pc[i := Waiting(sub)])
  }

  function Step(s: State, a: Action): State
    requires Enabled(s, a)
  {
    match a
    case Enter(i) => s.(pc := s.pc[i := Entered(s.sbp)], entered := s.entered[i := s.entered[i] + 1])
    case Arrive(i) => ArriveStep(s, i)
    case Wake(i) => Leave(s, i)
  }

  /** `bar_init` */
  function INIT(n: nat): State
    requires n >= 1
  { State(n, [n, n], 0, seq(n, i => Out), 0, seq(n, i => 0), seq(n, i => 0), seq(n, i => 0)) }

  ghost predicate Next(s: State, s': State) { exists a :: Enabled(s, a) && s' == Step(s, a) }

  ghost predicate IsRun(n: nat, run: seq<State>) {
    n >= 1 && run != [] && run[0] == INIT(n) && forall t :: 0 <= t < |run| - 1 ==> Next(run[t], run[t + 1])
  }

  // ---------- Invariant ----------

  /** The sub-barrier of a round; with one thread the pointer never moves */
  function SubOf(n: nat, k: nat): nat { if n == 1 then 0 else k % 2 }

  /**
   * A thread is in the current round or still leaving the one before; nobody
   * has arrived twice in a row without the others.
   */
  predicate ThreadOk(s: State, i: nat) requires Sized(s) && i < s.n {
    var c := s.rounds;
    match s.pc[i]
    case Out => s.entered[i] == s.arrived[i] == s.passed[i] == c
    case Entered(sub) => s.entered[i] == c + 1 && s.arrived[i] == s.passed[i] == c && sub == SubOf(s.n, c)
    case Waiting(sub) =>
      && s.entered[i] == s.arrived[i] == s.passed[i] + 1 && s.n > 1
      && (s.passed[i] == c || s.passed[i] + 1 == c) && sub == SubOf(s.n, s.passed[i])
  }

  /** The current sub-barrier lacks the arrivals of the current round; the other one is full. */
  ghost predicate CountsOk(s: State) requires Sized(s) {
    && s.sbp == SubOf(s.n, s.rounds)
    && s.runners[s.sbp] == s.n - Above(s.arrived, s.rounds) > 0
    && s.runners[1 - s.sbp] == s.n
  }

  ghost predicate Inv(s: State) {
    && s.n >= 1 && Sized(s) && CountsOk(s)
    && (forall i :: 0 <= i < s.n ==> ThreadOk(s, i))
  }

  lemma InitOk(n: nat)
    requires n >= 1
    ensures Inv(INIT(n))
  {
    AboveNone(INIT(n).arrived, 0);
  }

  lemma EnterOk(s: State, i: nat)
    requires Inv(s) && Enabled(s, Enter(i))
    ensures Inv(Step(s, Enter(i)))
  {
    var s' := Step(s, Enter(i));
    forall j | 0 <= j < s.n ensures ThreadOk(s', j) { assert ThreadOk(s, j); }
  }

  /** A thread arrives at the current sub-barrier. */
  lemma ArriveHere(s: State, i: nat)
    requires Inv(s) && Enabled(s, Arrive(i))
    ensures ThreadOk(s, i) && s.pc[i].sub == s.sbp && s.arrived[i] == s.rounds
  {
    assert ThreadOk(s, i);
  }

  lemma ArriveCounts(s: State, i: nat)
    requires Inv(s) && Enabled(s, Arrive(i))
    ensures ThreadOk(s, i) && s.pc[i].sub == s.sbp
    ensures var s' := Step(s, Arrive(i));
            && Above(s'.arrived, s.rounds) == Above(s.arrived, s.rounds) + 1
            && (s.runners[s.sbp] == 1 <==> forall j :: 0 <= j < s.n ==> s'.arrived[j] > s.rounds)
  {
    ArriveHere(s, i);
    AboveBump(s.arrived, i, s.rounds);
    var next := s.arrived[i := s.arrived[i] + 1];
    AboveAll(next, s.rounds);
    hide ThreadOk, SubOf, Above;
    assert Step(s, Arrive(i)).arrived == next;
  }

  lemma ArriveThread(s: State, i: nat, j: nat)
    requires Inv(s) && Enabled(s, Arrive(i)) && j < s.n
    ensures var s' := Step(s, Arrive(i)); ThreadOk(s', j) && s'.arrived[j] <= s.rounds + 1
  {
    ArriveCounts(s, i);
    assert ThreadOk(s, j);
    if s.runners[s.sbp] == 1 { assert Step(s, Arrive(i)).arrived[j] > s.rounds; }
  }

  /** The last arriver closes the round: the pointer moves on to the other, full sub-barrier. */
  lemma LastCloses(s: State, i: nat)
    requires Inv(s) && Enabled(s, Arrive(i)) && s.runners[s.sbp] == 1
    ensures Sized(Step(s, Arrive(i))) && CountsOk(Step(s, Arrive(i)))
  {
    var s' := Step(s, Arrive(i));
    ArriveCounts(s, i);
    forall j | 0 <= j < s.n ensures s'.arrived[j] <= s.rounds + 1 { ArriveThread(s, i, j); }
    hide ThreadOk, Above;
    AboveNone(s'.arrived, s.rounds + 1);
  }

  /** Another arriver leaves the round open, with one runner less. */
  lemma AnotherArrives(s: State, i: nat)
    requires Inv(s) && Enabled(s, Arrive(i)) && s.runners[s.sbp] != 1
    ensures Sized(Step(s, Arrive(i))) && CountsOk(Step(s, Arrive(i)))
  {
    ArriveCounts(s, i);
    hide ThreadOk, Above;
  }

  lemma ArriveOk(s: State, i: nat)
    requires Inv(s) && Enabled(s, Arrive(i))
    ensures Inv(Step(s, Arrive(i)))
  {
    var s' := Step(s, Arrive(i));
    if s.runners[s.sbp] == 1 { LastCloses(s, i); } else { AnotherArrives(s, i); }
    forall j | 0 <= j < s.n ensures ThreadOk(s', j) { ArriveThread(s, i, j); }
    hide ThreadOk, CountsOk;
  }

  lemma WakeOk(s: State, i: nat)
    requires Inv(s) && Enabled(s, Wake(i))
    ensures Inv(Step(s, Wake(i)))
  {
    var s' := Step(s, Wake(i));
    assert ThreadOk(s, i);
    AboveNone(s.arrived, s.rounds);
    forall j | 0 <= j < s.n ensures ThreadOk(s', j) { assert ThreadOk(s, j); }
  }

  lemma StepKeeps(s: State, a: Action)
    requires Inv(s) && Enabled(s, a)
    ensures Inv(Step(s, a)) && Step(s, a).n == s.n
  {
    match a
    case Enter(i) => EnterOk(s, i);
    case Arrive(i) => ArriveOk(s, i);
    case Wake(i) => WakeOk(s, i);
  }

  lemma {:induction false} RunKeeps(n: nat, run: seq<State>, t: nat)
    requires IsRun(n, run) && t < |run|
    ensures Inv(run[t]) && run[t].n == n
  {
    if t == 0 {
      InitOk(n);
    } else {
      RunKeeps(n, run, t - 1);
      assert Next(run[t - 1], run[t - 1 + 1]);
      var a :| Enabled(run[t - 1], a) && run[t] == Step(run[t - 1], a);
      StepKeeps(run[t - 1], a);
    }
  }

  // ---------- What the barrier promises ----------

  ghost predicate Reachable(n: nat, s: State) {
    exists run, t: nat :: IsRun(n, run) && t < |run| && run[t] == s
  }

  lemma ReachableInv(n: nat, s: State)
    requires Reachable(n, s)
    ensures Inv(s) && s.n == n
  {
    var run, t: nat :| IsRun(n, run) && t < |run| && run[t] == s;
    RunKeeps(n, run, t);
  }

  /** From the invariant alone: who is out of a round has seen all arrive in it. */
  lemma PassedAfterAll(s: State, i: nat, j: nat, k: nat)
    requires Inv(s) && i < s.n && j < s.n && s.passed[i] > k
    ensures s.arrived[j] > k && s.entered[j] > k
  {
    assert ThreadOk(s, i) && ThreadOk(s, j);
  }

  /** No thread leaves its `k`-th `bar_wait` before every thread has entered its `k`-th. */
  lemma NobodyLeavesEarly(n: nat, s: State, i: nat, j: nat, k: nat)
    requires Reachable(n, s) && i < |s.passed| && j < |s.entered| && s.passed[i] > k
    ensures s.entered[j] > k
  {
    ReachableInv(n, s);
    PassedAfterAll(s, i, j, k);
  }

  /** The rounds of two threads never differ by more than one. */
  lemma RoundsClose(n: nat, s: State, i: nat, j: nat)
    requires Reachable(n, s) && i < |s.entered| && j < |s.entered|
    ensures s.entered[i] <= s.entered[j] + 1 && |s.passed| == |s.entered| && s.passed[i] <= s.passed[j] + 1
  {
    ReachableInv(n, s);
    assert ThreadOk(s, i) && ThreadOk(s, j);
  }

  /**
   * A waiter, however slow, can get on exactly when all threads have arrived
   * in its round: the sub-barrier is not taken for a later round before it has left.
   */
  lemma SlowWaiterReleased(n: nat, s: State, i: nat)
    requires Reachable(n, s) && i < |s.pc| && s.pc[i].Waiting?
    ensures Sized(s) && i < s.n
    ensures Enabled(s, Wake(i)) <==> forall j :: 0 <= j < s.n ==> s.arrived[j] >= s.arrived[i]
    ensures Enabled(s, Wake(i)) <==> s.rounds >= s.arrived[i]
  {
    ReachableInv(n, s);
    assert ThreadOk(s, i);
    AboveAll(s.arrived, s.rounds);
    AboveNone(s.arrived, s.rounds);
    forall j | 0 <= j < s.n ensures s.arrived[j] >= s.rounds { assert ThreadOk(s, j); }
  }

  // ---------- The code ----------

  class Bar {
    var maxcnt: nat
    var runners: seq<int>
    var sbp: nat
    // local to the threads
    var pc: seq<Pc>
    // history
    ghost var rounds: nat
    ghost var entered: seq<nat>
    ghost var arrived: seq<nat>
    ghost var passed: seq<nat>

    ghost function St(): State
      reads this
    { State(maxcnt, runners, sbp, pc, rounds, entered, arrived, passed) }

    ghost method Record(s: State)
      modifies this`rounds, this`entered, this`arrived, this`passed
      ensures rounds == s.rounds && entered == s.entered && arrived == s.arrived && passed == s.passed
    { rounds, entered, arrived, passed := s.rounds, s.entered, s.arrived, s.passed; }

    constructor (count: nat)
      requires count >= 1
      ensures St() == INIT(count) && Inv(St())
    {
      maxcnt, sbp, runners := count, 0, [count, count];
      pc := seq(count, i => Out);
      new;
      Record(INIT(count));
      InitOk(count);
    }

    /** `bar_init` refuses a count below one. */
    static method BarInit(count: int) returns (ret: int, bar: Bar?)
      ensures ret == if count < 1 then -1 else 0
      ensures bar != null <==> ret == 0
      ensures bar != null ==> fresh(bar) && bar.St() == INIT(count) && Inv(bar.St())
    {
      if count < 1 { return -1, null; }
      bar := new Bar(count);
      ret := 0;
    }

    /** `sbp = bp->sbp` */
    method EnterBar(i: nat)
      requires Inv(St()) && Enabled(St(), Enter(i))
      modifies this
      ensures St() == Step(old(St()), Enter(i)) && Inv(St())
    {
      ghost var s := St();
      StepKeeps(s, Enter(i));
      pc := pc[i := Entered(sbp)];
      Record(Step(s, Enter(i)));
    }

    /** The locked section up to the wait; `through` tells the last thread, which does not wait. */
    method ArriveBar(i: nat) returns (through: bool)
      requires Inv(St()) && Enabled(St(), Arrive(i))
      modifies this
      ensures St() == Step(old(St()), Arrive(i)) && Inv(St())
      ensures through <==> pc[i].Out?
    {
      ghost var s := St();
      StepKeeps(s, Arrive(i));
      var sub := pc[i].sub;
      through := runners[sub] == 1;
      if through {
        if maxcnt != 1 {
          runners := runners[sub := maxcnt];
          sbp := if sbp == 0 then 1 else 0;
        }
        pc := pc[i := Out];
      } else {
        runners := runners[sub := runners[sub] - 1];
        pc := pc[i := Waiting(sub)];
      }
      Record(Step(s, Arrive(i)));
    }

    /** `while ( sbp->runners != bp->maxcnt )` */
    method TryWake(i: nat) returns (on: bool)
      requires Inv(St()) && i < maxcnt && pc[i].Waiting?
      modifies this
      ensures Inv(St()) && on == Enabled(old(St()), Wake(i))
      ensures St() == if on then Step(old(St()), Wake(i)) else old(St())
    {
      ghost var s := St();
      on := runners[pc[i].sub] == maxcnt;
      if on {
        StepKeeps(s, Wake(i));
        pc := pc[i := Out];
        Record(Step(s, Wake(i)));
      }
    }
  }
}
