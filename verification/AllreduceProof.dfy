/** The invariant of the double-buffered allreduce, and its proof step by step. */
module AllreduceProof {
  import opened Basics
  import opened Counting
  import opened ReduceOps
  import opened Allreduce

  // ---------- Invariant ----------

  /** The round that the pointer shows: the number of switches */
  function Now(s: State): int { |s.stage| - 1 }

  /** The rounds use the two sub-objects in turn. */
  function SubOf(k: int): (r: nat)
    ensures r < 2
  { k % 2 }

  predicate Begun(g: Stage) { !g.Open? && !g.Elected? }

  predicate SizesOk(s: State) {
    && s.n >= 2 && Sized(s) && s.subp == SubOf(Now(s))
    && (forall i :: 0 <= i < s.n ==> s.thread[i].sub < 2)
    && |s.width| == Now(s) + (if Begun(s.stage[Now(s)]) then 1 else 0)
    && |s.mem| == |s.width| <= |s.ops|
  }

  /** Thread `i` has put its element `e` of round `k` into the shared result. */
  predicate Did(s: State, i: nat, k: nat, e: nat) requires Sized(s) && i < s.n {
    s.past[i] > k || (s.past[i] == k && s.thread[i].pc.Did(e))
  }

  function Val(s: State, i: nat, k: nat, e: nat): Int32
    requires Sized(s) && i < s.n && k < |s.ops|
  { if Did(s, i, k, e) && k < |s.contrib[i]| then Elem(s.ops[k], s.contrib[i][k], e) else Unit(s.ops[k]) }

  function Row(s: State, k: nat, e: nat): seq<Int32>
    requires Sized(s) && k < |s.ops|
  { seq(s.n, i requires 0 <= i < s.n => Val(s, i, k, e)) }

  /** What all threads contribute to element `e` of round `k` */
  function Col(s: State, k: nat, e: nat): seq<Int32>
    requires Sized(s) && k < |s.ops|
  { seq(s.n, i requires 0 <= i < s.n => if k < |s.contrib[i]| then Elem(s.ops[k], s.contrib[i][k], e) else Unit(s.ops[k])) }

  /** The data of a round are the fold of what has been contributed to that round, if there was memory for them. */
  predicate DataOk(s: State, k: nat, data: Shared) requires SizesOk(s) {
    && k < |s.width| && (data.Res? <==> s.mem[k])
    && (data.Res? ==> |data.vals| == s.width[k])
    && (data.Res? ==> forall e :: 0 <= e < |data.vals| ==> data.vals[e] == Fold(s.ops[k], Row(s, k, e)))
  }

  /** Thread `w`, the last to leave round `k`, is resetting its sub-object. */
  predicate Resets(s: State, w: nat, k: nat) requires Sized(s) {
    w < s.n && |s.contrib[w]| == k + 1 && (s.thread[w].pc.Clear? || s.thread[w].pc.Reopen?)
  }

  /** What the sub-object of round `k` holds at each stage of the round */
  predicate SubOk(s: State, k: nat, u: Sub) requires SizesOk(s) && k < |s.stage| {
    var counted, done := Above(s.past, k), Above(s.left, k);
    match s.stage[k]
    case Open => u.avail == -1 && u.done == done == counted == 0 && u.data == Nothing
    case Elected(w) => u.avail == 0 && u.done == done == counted == 0 && u.data == Nothing
    case Filled(w) => u.avail == 0 && u.done == done == counted == 0 && DataOk(s, k, u.data)
    case Running => u.avail == counted > 0 && u.done == done < s.n && DataOk(s, k, u.data)
    case Clearing(w) => u.avail == s.n && done == s.n && Resets(s, w, k)
    case Cleared(w) => u.avail == s.n && u.done == 0 && done == s.n && u.data == Nothing && Resets(s, w, k)
    case Over => u.avail == -1 && u.done == 0 && done == s.n && u.data == Nothing
  }

  /**
   * The current round has the sub-object that the pointer shows, the one
   * before has the other, and all earlier rounds are over.
   */
  predicate RoundsOk(s: State) requires SizesOk(s) {
    var c := Now(s);
    && SubOk(s, c, s.sub[SubOf(c)])
    && (if c == 0 then s.sub[1] == Sub(-1, 0, Nothing)
        else Begun(s.stage[c - 1]) && !s.stage[c - 1].Filled? && Above(s.past, c - 1) == s.n && SubOk(s, c - 1, s.sub[SubOf(c - 1)]))
    && (forall k :: 0 <= k < c - 1 ==> s.stage[k].Over?)
  }

  predicate ThreadOk(s: State, i: nat) requires SizesOk(s) && i < s.n {
    var t, calls := s.thread[i], |s.contrib[i]|;
    && calls <= |s.ops|
    && WinnerTie(t.pc, i, s.stage[Now(s)])
    && (if t.pc.Away? then s.past[i] == s.left[i] == |s.result[i]| == calls == Now(s) && CodesOk(s.codes[i], calls, s.mem)
        else calls > 0 && InCallOk(s, i, calls - 1))
  }

  /** The winner of an election stands before the step that the stage waits for. */
  predicate WinnerTie(pc: Pc, i: nat, g: Stage) {
    && (g == Elected(i) ==> pc.Fill?)
    && (g == Filled(i) ==> pc.Announce?)
  }

  /** Thread `i` is in its call `k`. */
  predicate InCallOk(s: State, i: nat, k: nat) requires SizesOk(s) && i < s.n && |s.contrib[i]| == k + 1 <= |s.ops| {
    var t := s.thread[i];
    && t.sub == SubOf(k) && t.send == s.contrib[i][k] && t.op == s.ops[k] && k <= Now(s) <= k + 1
    && NumbersOk(t.pc, k, s.past[i], s.left[i], |s.result[i]|)
    && (t.pc.Uncounted() ==> k == Now(s))
    && (t.pc.Copy? || t.pc.Done? || t.pc.Leaving() ==> Above(s.past, k) == s.n)
    && StageTie(t.pc, i, s.stage[k])
    && (t.pc.Element? || t.pc.Swap? ==> k < |s.width| && AtElementOk(t, s.width[k]))
    && (t.pc.Swap? ==> s.mem[k])
    && RetOk(t.pc, t.ret, k, s.mem) && CodesOk(s.codes[i], |s.result[i]|, s.mem)
  }

  /** The return code of a thread in call `k`, once it has seen the data of the round and before */
  predicate RetOk(pc: Pc, ret: int, k: nat, mem: seq<bool>) {
    && (pc.Announce? || pc.Count? || pc.Undone() || pc.Leaving() ==> k < |mem| && ret == CodeOf(mem[k]))
    && (pc.Test? || pc.Elect? || pc.Wait? || pc.Element? || pc.Swap? ==> ret == 0)
  }

  /** The codes of the calls that have their result are those of their rounds. */
  predicate CodesOk(codes: seq<int>, calls: nat, mem: seq<bool>) {
    |codes| == calls <= |mem| && forall k :: 0 <= k < |codes| ==> codes[k] == CodeOf(mem[k])
  }

  /** How far a thread in call `k` is counted, done, and served */
  predicate NumbersOk(pc: Pc, k: nat, past: nat, left: nat, results: nat) {
    && past == k + (if pc.Uncounted() then 0 else 1)
    && left == k + (if pc.Leaving() then 1 else 0)
    && results == k + (if pc.Done? || pc.Leaving() then 1 else 0)
  }

  /** What a thread can tell of the stage of its own round */
  predicate StageTie(pc: Pc, i: nat, g: Stage) {
    && (pc.Undone() || pc.Combining() ==> g.Running?)
    && (pc.Fill? <==> g == Elected(i))
    && (pc.Announce? <==> g == Filled(i))
    && (pc.Clear? <==> g == Clearing(i))
    && (pc.Reopen? <==> g == Cleared(i))
    && (pc.Wait? ==> !g.Open?)
  }

  /** Where a thread stands in its elements; what it read is worse than what it has. */
  predicate AtElementOk(t: Thread, width: nat) requires t.pc.Element? || t.pc.Swap? {
    && t.pc.e <= Min(|t.send|, width)
    && (t.pc.Swap? ==> t.pc.e < Min(|t.send|, width)
                       && (if t.op == MAX then t.send[t.pc.e] > t.pc.seen else t.op == MIN && t.send[t.pc.e] < t.pc.seen))
  }

  predicate ThreadsOk(s: State) requires SizesOk(s) { forall i :: 0 <= i < s.n ==> ThreadOk(s, i) }

  /** What thread `i` got in round `k` is the fold of all contributions to that round. */
  predicate ResultAt(s: State, i: nat, k: nat) requires SizesOk(s) && i < s.n && k < |s.result[i]| {
    && k < |s.width| && Above(s.past, k) == s.n && k < |s.contrib[i]|
    && (s.result[i][k].Res? <==> s.mem[k])
    && (s.result[i][k].Res? ==> ResultIs(s, i, k, s.result[i][k].vals))
  }

  predicate ResultIs(s: State, i: nat, k: nat, vals: seq<Int32>) requires SizesOk(s) && i < s.n && k < |s.width| && k < |s.contrib[i]| {
    && |vals| == Min(|s.contrib[i][k]|, s.width[k])
    && forall e :: 0 <= e < |vals| ==> vals[e] == Fold(s.ops[k], Col(s, k, e))
  }

  predicate ResultsOk(s: State) requires SizesOk(s) {
    forall i, k :: 0 <= i < s.n && 0 <= k < |s.result[i]| ==> ResultAt(s, i, k)
  }

  ghost predicate Inv(s: State) { SizesOk(s) && RoundsOk(s) && ThreadsOk(s) && ResultsOk(s) }

  lemma InitOk(n: nat)
    requires n >= 2
    ensures Inv(INIT(n))
  {
    AboveNone(INIT(n).past, 0);
    AboveNone(INIT(n).left, 0);
  }
}
