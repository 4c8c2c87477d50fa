/** What the broadcast queue promises, in every state of every run. */
module BcastTheorems {
  import opened Counting
  import opened Bcast
  import opened BcastProof

  ghost predicate Reachable(n: nat, s: State) {
    exists run, t: nat :: IsRun(n, run) && t < |run| && run[t] == s
  }

  lemma ReachableInv(n: nat, s: State)
    requires Reachable(n, s)
    ensures Inv(s)
  {
    var run, t: nat :| IsRun(n, run) && t < |run| && run[t] == s;
    RunKeeps(n, run, t);
  }

  /**
   * However far the root runs ahead, the `k`-th broadcast of receiver `j`
   * gives it the first units of the root's `k`-th payload, as many as fit, and
   * leaves the rest of its buffer; only when the root had no memory for that
   * payload it gives the error code and leaves the buffer.
   */
  lemma KthPayload(n: nat, s: State, j: nat, k: nat)
    requires Reachable(n, s) && j < |s.got| && k < |s.got[j]|
    ensures k < |s.hist| && k < |s.sent|
    ensures var g := s.got[j][k];
            if s.hist[k] == NoData then g.ret == -2 && g.after == g.before
            else
              && g.ret == 0 && |g.after| == |g.before|
              && forall i :: 0 <= i < |g.after| ==> g.after[i] == if i < |s.sent[k]| then s.sent[k][i] else g.before[i]
  {
    ReachableInv(n, s);
    assert RecvOk(s, j);
  }

  /**
   * A published handle stays with its round, data and count in place, until
   * all `n - 1` receivers have counted themselves past it.
   */
  lemma AvailIsCount(n: nat, s: State, k: nat)
    requires Reachable(n, s) && k < |s.hist|
    ensures |s.past| == n - 1 == s.n - 1 && k + 1 < |s.ids|
    ensures Above(s.past, k) < n - 1 ==>
              var h := s.ids[k];
              h in s.heap && s.heap[h] == Node(s.ids[k + 1], 1 + Above(s.past, k), s.hist[k]) && s.hist[k] != Freed
    ensures Above(s.past, k) == n - 1 <==> forall j :: 0 <= j < n - 1 ==> s.past[j] > k
  {
    ReachableInv(n, s);
    SizeFixed(n, s);
    AboveAll(s.past, k);
    if IsLive(s, k) { assert ChainAt(s, k); }
  }

  lemma SizeFixed(n: nat, s: State)
    requires Reachable(n, s)
    ensures s.n == n
  {
    var run, t: nat :| IsRun(n, run) && t < |run| && run[t] == s;
    SizeFixedAt(n, run, t);
  }

  lemma {:induction false} SizeFixedAt(n: nat, run: seq<State>, t: nat)
    requires IsRun(n, run) && t < |run|
    ensures run[t].n == n
  {
    if t > 0 {
      SizeFixedAt(n, run, t - 1);
      assert Next(run[t - 1], run[t - 1 + 1]);
    }
  }

  /** A receiver waits exactly while its round is not published. */
  lemma WaitsForItsRound(n: nat, s: State, j: nat)
    requires Reachable(n, s) && j < |s.recv| && s.recv[j].pc.Wait?
    ensures |s.past| == |s.recv| && (Enabled(s, RecvSee(j)) <==> s.past[j] < |s.hist|)
  {
    ReachableInv(n, s);
    OwnRound(s, j);
    assert RecvOk(s, j);
  }

  /** Wherever the root stands, its next step can be taken at once: it never waits for a receiver. */
  lemma RootNeverBlocks(n: nat, s: State, data: seq<int>, mem: bool)
    requires Reachable(n, s)
    ensures match s.root.pc
            case Out => Enabled(s, RootEnter(data))
            case Head => Enabled(s, RootHead)
            case Succ(_) => Enabled(s, RootSucc)
            case Swap(_, _) => Enabled(s, RootSwap)
            case Chunk => Enabled(s, RootChunk)
            case Tail(_) => Enabled(s, RootTail)
            case Splice(_) => Enabled(s, RootSplice)
            case Fill(_) => Enabled(s, RootFill(mem))
            case Publish(_) => Enabled(s, RootPublish)
  {
    ReachableInv(n, s);
    NextRound(s);
    if s.root.pc.Tail? || s.root.pc.Splice? { assert At(s, s.root.pc.item + s.n - 1, Rest); }
    if s.root.pc.Fill? { assert At(s, s.root.pc.item, Hand); }
  }

  /** Every thread touches only handles that are still its own to touch, and never reads data that was given back. */
  lemma ReceiverTouches(n: nat, s: State, j: nat)
    requires Reachable(n, s) && j < |s.recv|
    ensures |s.past| == |s.recv|
    ensures s.recv[j].pc.Counting() ==> At(s, s.recv[j].cur, Live(s.past[j]))
    ensures s.recv[j].pc.Leaving() ==> At(s, s.recv[j].cur, Leaver(j))
    ensures !s.recv[j].pc.Away? ==> s.recv[j].cur in s.heap
    ensures s.recv[j].pc.Copy? ==> s.heap[s.recv[j].cur].data != Freed
    ensures s.recv[j].pc.Last? ==> s.heap[s.recv[j].cur].data != Freed && (s.recv[j].pc.ret == 0 <==> s.heap[s.recv[j].cur].data.Buf?)
  {
    ReachableInv(n, s);
    OwnRound(s, j);
    assert RecvOk(s, j);
    if s.recv[j].pc.Leaving() { assert At(s, s.recv[j].cur, Leaver(j)); }
  }

  /** A handle is always at exactly one place: the free list, the live chain, the root's hands or a last leaver's. */
  lemma OnePlace(n: nat, s: State, h: int)
    requires Reachable(n, s)
    ensures h in s.heap <==> exists p :: At(s, h, p)
    ensures forall p, q :: At(s, h, p) && At(s, h, q) ==> p == q
  {
    ReachableInv(n, s);
    if h in s.heap { assert At(s, h, s.place[h]); }
  }

  /**
   * No ABA: when the root's compare-and-swap finds the head it read before,
   * the successor it read before is still the one below it, though receivers
   * may have pushed, and a chunk may have been spliced in, in between.
   */
  lemma NoAba(n: nat, s: State)
    requires Reachable(n, s) && s.root.pc.Swap? && s.free == s.root.pc.ret
    ensures s.fl != [] && s.free == s.fl[|s.fl| - 1]
    ensures var s' := Step(s, RootSwap); s'.free == Top(s.fl[..|s.fl| - 1]) && s'.fl == s.fl[..|s.fl| - 1]
  {
    ReachableInv(n, s);
    SwapOk(s);
    var ret := s.root.pc.ret;
    assert At(s, ret, s.place[ret]);
    assert At(s, ret, Free(|s.fl| - 1));
  }

  /** The free list in memory is always a proper list: from its head the links visit its handles and end. */
  lemma FreeListIntact(n: nat, s: State, d: nat)
    requires Reachable(n, s) && d < |s.fl|
    ensures s.free == s.fl[|s.fl| - 1] && s.fl[d] in s.heap
    ensures s.heap[s.fl[d]].next == if d == 0 then NULL else s.fl[d - 1]
    ensures forall e: nat :: e < |s.fl| && s.fl[e] == s.fl[d] ==> e == d
  {
    ReachableInv(n, s);
    assert FreeAt(s, d) && At(s, s.fl[d], Free(d));
    forall e: nat | e < |s.fl| && s.fl[e] == s.fl[d] ensures e == d { assert At(s, s.fl[e], Free(e)); }
  }
}
