/**
 * The broadcast queue seen from outside: what the calls were given and what
 * they gave.  A trace is a run together with its steps, and the arguments of
 * the calls are read off the steps.
 */
module BcastCalls {
  import opened Basics
  import opened Counting
  import opened Bcast
  import opened BcastProof
  import opened BcastTheorems

  ghost predicate IsTrace(n: nat, run: seq<State>, acts: seq<Action>) {
    && n >= 2 && |run| == |acts| + 1 && run[0] == INIT(n)
    && forall t :: 0 <= t < |acts| ==> Enabled(run[t], acts[t]) && run[t + 1] == Step(run[t], acts[t])
  }

  lemma TraceIsRun(n: nat, run: seq<State>, acts: seq<Action>)
    requires IsTrace(n, run, acts)
    ensures IsRun(n, run)
  {
    hide Enabled, Step;
    forall t | 0 <= t < |run| - 1 ensures Next(run[t], run[t + 1]) { assert Enabled(run[t], acts[t]) && run[t + 1] == Step(run[t], acts[t]); }
  }

  /** Every run has a trace. */
  lemma {:induction false} RunHasTrace(n: nat, run: seq<State>) returns (acts: seq<Action>)
    requires IsRun(n, run)
    ensures IsTrace(n, run, acts)
  {
    hide Enabled, Step;
    if |run| == 1 {
      acts := [];
    } else {
      var front := run[..|run| - 1];
      forall t | 0 <= t < |front| - 1 ensures Next(front[t], front[t + 1]) { assert Next(run[t], run[t + 1]); }
      acts := RunHasTrace(n, front);
      assert Next(run[|run| - 2], run[|run| - 2 + 1]);
      var a :| Enabled(run[|run| - 2], a) && run[|run| - 1] == Step(run[|run| - 2], a);
      acts := acts + [a];
    }
  }

  // ---------- The arguments of the calls ----------

  /** The payloads that the root was called with, in order */
  function Payloads(acts: seq<Action>): seq<seq<int>> {
    if acts == [] then [] else
    var a := acts[|acts| - 1];
    Payloads(acts[..|acts| - 1]) + (if a.RootEnter? then [a.data] else [])
  }

  /** Whether there was memory for the payloads, in order */
  function Memories(acts: seq<Action>): seq<bool> {
    if acts == [] then [] else
    var a := acts[|acts| - 1];
    Memories(acts[..|acts| - 1]) + (if a.RootFill? then [a.mem] else [])
  }

  /** The buffers that receiver `j` was called with, in order */
  function Buffers(acts: seq<Action>, j: nat): seq<seq<int>> {
    if acts == [] then [] else
    var a := acts[|acts| - 1];
    Buffers(acts[..|acts| - 1], j) + (if a.RecvEnter? && a.j == j then [a.buf] else [])
  }

  /** What a round holds: a copy of the payload exactly if there was memory for it */
  function Held(mem: bool, payload: seq<int>): Data { if mem then Buf(payload) else NoData }

  /** The history of the root says what the root was given. */
  ghost predicate RootTold(s: State, payloads: seq<seq<int>>, mems: seq<bool>) {
    && s.sent == payloads
    && |mems| == |s.hist| + (if s.root.pc.Publish? then 1 else 0) <= |payloads|
    && (forall k :: 0 <= k < |s.hist| ==> s.hist[k] == Held(mems[k], payloads[k]))
    && (s.root.pc.Publish? ==> s.root.cur in s.heap && s.heap[s.root.cur].data == Held(mems[|s.hist|], payloads[|s.hist|]))
  }

  /** The history of a receiver says what it was given. */
  ghost predicate RecvTold(s: State, j: nat, buffers: seq<seq<int>>) requires j < |s.recv| == |s.got| {
    var open := s.recv[j].pc.Wait? || s.recv[j].pc.Copy?;
    && |buffers| == |s.got[j]| + (if open then 1 else 0)
    && (forall k :: 0 <= k < |s.got[j]| ==> s.got[j][k].before == buffers[k])
    && (open ==> s.recv[j].buf == buffers[|s.got[j]|])
  }

  // ---------- Step by step ----------

  /** Filling puts the payload into the handle exactly if there was memory, and publishing records it. */
  lemma FillHolds(s: State, mem: bool)
    requires Inv(s) && Enabled(s, RootFill(mem))
    ensures var s' := Step(s, RootFill(mem));
      && |s.sent| == |s.hist| + 1 && s'.sent == s.sent && s'.hist == s.hist && s'.root.pc.Publish? && s'.root.cur in s'.heap
      && s'.heap[s'.root.cur].data == Held(mem, s.sent[|s.hist|])
  {
    NextRound(s);
    assert At(s, s.root.pc.item, Hand);
    hide FreeOk, RecvsOk;
  }

  lemma PublishRecords(s: State)
    requires Enabled(s, RootPublish)
    ensures var s' := Step(s, RootPublish); s'.hist == s.hist + [s.heap[s.root.cur].data] && s'.sent == s.sent && s'.root.pc.Out?
  { }

  /** A last leaver gives back another payload than the one being published. */
  lemma LeaverElsewhere(s: State, j: nat)
    requires Inv(s) && Enabled(s, RecvLast(j)) && s.root.pc.Publish?
    ensures s.recv[j].cur != s.root.cur
  {
    NextRound(s);
    assert RecvOk(s, j) && At(s, s.recv[j].cur, Leaver(j));
    hide FreeOk, RecvsOk, ChainOk;
  }

  /** No other step touches what the root keeps. */
  lemma RootUntouched(s: State, a: Action)
    requires Inv(s) && Enabled(s, a) && !a.RootFill? && !a.RootPublish?
    requires s.root.pc.Publish? ==> s.root.cur in s.heap
    ensures var s' := Step(s, a);
      && s'.hist == s.hist && s'.sent == s.sent + (if a.RootEnter? then [a.data] else [])
      && (s'.root.pc.Publish? <==> s.root.pc.Publish?)
      && (s.root.pc.Publish? ==> s'.root.cur == s.root.cur && s.root.cur in s.heap && s.root.cur in s'.heap
                                 && s'.heap[s.root.cur].data == s.heap[s.root.cur].data)
  {
    if s.root.pc.Publish? && a.RecvLast? { LeaverElsewhere(s, a.j); }
    hide Inv, PlacesOk, FreeOk, RecvsOk, ChunkNodes, ChunkPlaces, SplicePlaces, Reversed, Received;
  }

  lemma RootToldStep(s: State, a: Action, payloads: seq<seq<int>>, mems: seq<bool>)
    requires Inv(s) && Enabled(s, a) && RootTold(s, payloads, mems)
    ensures RootTold(Step(s, a), payloads + (if a.RootEnter? then [a.data] else []), mems + (if a.RootFill? then [a.mem] else []))
  {
    hide Inv, Step, Enabled;
    match a
    case RootFill(mem) =>
      FillHolds(s, mem);
      FillFrom(s, mem);
    case RootPublish =>
      PublishRecords(s);
      PublishFrom(s);
    case _ => RootUntouched(s, a);
  }

  lemma FillFrom(s: State, mem: bool)
    requires Enabled(s, RootFill(mem))
    ensures s.root.pc.Fill?
  { }

  lemma PublishFrom(s: State)
    requires Enabled(s, RootPublish)
    ensures s.root.pc.Publish?
  { }

  /** What a step does to a receiver: it opens a call with a buffer, ends it with an outcome, or leaves both alone. */
  lemma RecvChanges(s: State, a: Action, j: nat)
    requires SizesOk(s) && Enabled(s, a) && j < s.n - 1
    ensures var s' := Step(s, a);
      && |s'.recv| == |s'.got| == s.n - 1
      && var r, r' := s.recv[j], s'.recv[j];
      if a.RecvEnter? && a.j == j then r.pc.Away? && r'.pc.Wait? && r'.buf == a.buf && s'.got[j] == s.got[j]
      else if a.RecvCopy? && a.j == j then
        r.pc.Copy? && !r'.pc.Wait? && !r'.pc.Copy? && |s'.got[j]| == |s.got[j]| + 1 && s.got[j] <= s'.got[j] && s'.got[j][|s.got[j]|].before == r.buf
      else s'.got[j] == s.got[j] && r'.buf == r.buf && (r'.pc.Wait? || r'.pc.Copy? <==> r.pc.Wait? || r.pc.Copy?)
  {
    hide ChunkNodes, ChunkPlaces, SplicePlaces, Reversed;
  }

  lemma RecvToldStep(s: State, a: Action, j: nat, buffers: seq<seq<int>>)
    requires SizesOk(s) && Enabled(s, a) && j < s.n - 1 && RecvTold(s, j, buffers)
    ensures |Step(s, a).recv| == |Step(s, a).got| == s.n - 1
    ensures RecvTold(Step(s, a), j, buffers + (if a.RecvEnter? && a.j == j then [a.buf] else []))
  {
    RecvChanges(s, a, j);
    hide Step, Enabled;
  }

  lemma SizesAt(n: nat, run: seq<State>, t: nat)
    requires IsRun(n, run) && t < |run|
    ensures Inv(run[t]) && SizesOk(run[t]) && run[t].n == n
  {
    RunKeeps(n, run, t);
    SizeFixedAt(n, run, t);
    hide PlacesOk, FreeOk, ChainOk, RootOk, RecvsOk;
  }

  /** The history of a run is what its calls were given. */
  lemma {:induction false} HistoryIsCalls(n: nat, run: seq<State>, acts: seq<Action>)
    requires IsTrace(n, run, acts)
    ensures RootTold(run[|acts|], Payloads(acts), Memories(acts))
    ensures |run[|acts|].recv| == |run[|acts|].got| == n - 1
    ensures forall j :: 0 <= j < n - 1 ==> RecvTold(run[|acts|], j, Buffers(acts, j))
  {
    hide Inv, Step, Enabled, RootTold, RecvTold;
    if acts == [] {
      FirstTold(n);
      assert |INIT(n).recv| == n - 1 == |INIT(n).got|;
    } else {
      var m := |acts| - 1;
      var front, s, a := acts[..m], run[m], acts[m];
      assert IsTrace(n, run[..m + 1], front);
      HistoryIsCalls(n, run[..m + 1], front);
      TraceIsRun(n, run, acts);
      SizesAt(n, run, m);
      assert Enabled(run[m], acts[m]) && run[m + 1] == Step(run[m], acts[m]);
      RootToldStep(s, a, Payloads(front), Memories(front));
      RecvToldStep(s, a, 0, Buffers(front, 0));
      forall j | 0 <= j < n - 1 ensures RecvTold(run[|acts|], j, Buffers(acts, j)) { RecvToldStep(s, a, j, Buffers(front, j)); }
    }
  }

  lemma FirstTold(n: nat)
    requires n >= 2
    ensures RootTold(INIT(n), [], []) && forall j :: 0 <= j < n - 1 ==> RecvTold(INIT(n), j, [])
  {
    hide ChunkNodes, Reversed, FirstPlaces;
  }

  /**
   * The `k`-th broadcast of receiver `j`, from its arguments and those of the
   * root: with memory for the root's `k`-th payload it returns 0 and the buffer
   * of the call holds as much of that payload as fits, and is otherwise as it
   * was; without memory it returns -2 and the buffer is as it was.
   */
  lemma BroadcastDelivers(n: nat, run: seq<State>, acts: seq<Action>, j: nat, k: nat)
    requires IsTrace(n, run, acts) && j < n - 1
    requires j < |run[|acts|].got| && k < |run[|acts|].got[j]|
    ensures k < |Payloads(acts)| && k < |Memories(acts)| && k < |Buffers(acts, j)|
    ensures var g, data, buf := run[|acts|].got[j][k], Payloads(acts)[k], Buffers(acts, j)[k];
      && |g.after| == |buf| && g.ret == (if Memories(acts)[k] then 0 else -2)
      && forall i :: 0 <= i < |buf| ==> g.after[i] == if Memories(acts)[k] && i < |data| then data[i] else buf[i]
  {
    var s := run[|acts|];
    HistoryIsCalls(n, run, acts);
    TraceIsRun(n, run, acts);
    hide IsTrace, IsRun, Step, Enabled;
    assert Reachable(n, s);
    hide Reachable;
    KthPayload(n, s, j, k);
    assert RecvTold(s, j, Buffers(acts, j));
  }

  // ---------- No payload is lost ----------

  /** Only a live round, one being published, and a last leaver that is about to give it back have a payload. */
  ghost predicate DataHeld(s: State) {
    forall h :: h in s.heap && s.heap[h].data.Buf? ==> h in s.place && MayHold(s, s.place[h])
  }

  predicate MayHold(s: State, p: Place) {
    match p
    case Live(k) => k < |s.hist| || s.root.pc.Publish?
    case Leaver(j) => j < |s.recv| && s.recv[j].pc.Last?
    case _ => false
  }

  lemma DataHeldStep(s: State, a: Action)
    requires Inv(s) && DataHeld(s) && Enabled(s, a)
    ensures DataHeld(Step(s, a))
  {
    hide Inv;
    match a
    case RootChunk => ChunkHolds(s);
    case RootSplice => SpliceHolds(s);
    case RootFill(mem) => FillKeepsHeld(s, mem);
    case RootPublish => PublishKeepsHeld(s);
    case RootSwap => SwapKeepsHeld(s);
    case RootTail =>
    case RootEnter(_) =>
    case RootHead =>
    case RootSucc =>
    case RecvEnter(_, _) =>
    case RecvSee(_) =>
    case RecvCopy(_) =>
    case RecvSetKey(_) =>
    case RecvCount(j) => CountKeepsHeld(s, j);
    case RecvLast(j) => LastKeepsHeld(s, j);
    case RecvReread(j) => LeaverKeepsHeld(s, a, j);
    case RecvPush(j) => LeaverKeepsHeld(s, a, j);
  }

  lemma ChunkHolds(s: State)
    requires Inv(s) && DataHeld(s) && Enabled(s, RootChunk)
    ensures DataHeld(Step(s, RootChunk))
  {
    hide FreeOk, ChainOk, RootOk, RecvsOk, At;
  }

  lemma SpliceHolds(s: State)
    requires Inv(s) && DataHeld(s) && Enabled(s, RootSplice)
    ensures DataHeld(Step(s, RootSplice))
  {
    var s', item := Step(s, RootSplice), s.root.pc.item;
    forall h | h in s'.heap && s'.heap[h].data.Buf? ensures h in s'.place && MayHold(s', s'.place[h]) {
      if item < h < item + s.n { assert At(s, h, Rest); }
    }
  }

  lemma SwapKeepsHeld(s: State)
    requires Inv(s) && DataHeld(s) && Enabled(s, RootSwap)
    ensures DataHeld(Step(s, RootSwap))
  {
    hide ChainOk, RecvsOk, PlacesOk, FreeOk;
  }

  lemma FillKeepsHeld(s: State, mem: bool)
    requires Inv(s) && DataHeld(s) && Enabled(s, RootFill(mem))
    ensures DataHeld(Step(s, RootFill(mem)))
  {
    NextRound(s);
    assert At(s, s.root.pc.item, Hand);
    hide ChainOk, RecvsOk, FreeOk;
  }

  lemma PublishKeepsHeld(s: State)
    requires Inv(s) && DataHeld(s) && Enabled(s, RootPublish)
    ensures DataHeld(Step(s, RootPublish))
  {
    NextRound(s);
    assert At(s, s.root.pc.item, Hand);
    forall h | h in s.place && s.place[h].Live? ensures s.place[h].k <= |s.hist| { assert At(s, h, s.place[h]); }
    hide ChainOk, RecvsOk, FreeOk, At;
  }

  lemma CountKeepsHeld(s: State, j: nat)
    requires Inv(s) && DataHeld(s) && Enabled(s, RecvCount(j))
    ensures DataHeld(Step(s, RecvCount(j)))
  {
    OwnRound(s, j);
    assert RecvOk(s, j);
    hide ChainOk, RecvsOk, FreeOk, RootOk;
    forall h | h in s.place ensures s.place[h] != Leaver(j) { assert At(s, h, s.place[h]); }
  }

  lemma LastKeepsHeld(s: State, j: nat)
    requires Inv(s) && DataHeld(s) && Enabled(s, RecvLast(j))
    ensures DataHeld(Step(s, RecvLast(j)))
  {
    assert RecvOk(s, j) && At(s, s.recv[j].cur, Leaver(j));
    forall h | h in s.place && s.place[h] == Leaver(j) ensures h == s.recv[j].cur { assert At(s, h, Leaver(j)); }
    hide ChainOk, RecvsOk, FreeOk, RootOk, At, PlacesOk;
  }

  lemma LeaverKeepsHeld(s: State, a: Action, j: nat)
    requires Inv(s) && DataHeld(s) && Enabled(s, a) && (a == RecvReread(j) || a == RecvPush(j))
    ensures DataHeld(Step(s, a))
  {
    assert At(s, s.recv[j].cur, Leaver(j));
    hide ChainOk, RecvsOk, FreeOk, RootOk, At;
  }

  lemma {:induction false} HeldAt(n: nat, run: seq<State>, t: nat)
    requires IsRun(n, run) && t < |run|
    ensures DataHeld(run[t])
  {
    hide Inv, Step, Enabled;
    if t > 0 {
      HeldAt(n, run, t - 1);
      RunKeeps(n, run, t - 1);
      assert Next(run[t - 1], run[t - 1 + 1]);
      var a :| Enabled(run[t - 1], a) && run[t] == Step(run[t - 1], a);
      DataHeldStep(run[t - 1], a);
    }
  }

  /**
   * No payload is lost: memory for one is held only by the handle of a round
   * that some receiver has not got past, or that the root is publishing, and by
   * one whose last receiver is about to give it back.
   */
  lemma NoPayloadLost(n: nat, s: State, h: int)
    requires Reachable(n, s) && h in s.heap && s.heap[h].data.Buf?
    ensures (exists k: nat :: k < |s.ids| && s.ids[k] == h && IsLive(s, k) && (k < |s.hist| || s.root.pc.Publish?))
            || (exists j: nat :: j < |s.recv| && s.recv[j].pc.Last? && s.recv[j].cur == h)
  {
    ReachableInv(n, s);
    assert DataHeld(s) by {
      var run, t: nat :| IsRun(n, run) && t < |run| && run[t] == s;
      HeldAt(n, run, t);
    }
    assert At(s, h, s.place[h]);
  }

  // ---------- Every step brings a thread on ----------

  /** How far the root is from the end of its call */
  function RootDistance(pc: RootPc): nat {
    match pc
    case Out => 0
    case Publish(_) => 1
    case Fill(_) => 2
    case Swap(_, _) => 3
    case Splice(_) => 3
    case Succ(_) => 4
    case Tail(_) => 4
    case Chunk => 5
    case Head => 6
  }

  function RecvDistance(pc: RecvPc): nat {
    match pc
    case Away => 0
    case Push => 1
    case Reread => 2
    case Last(_) => 3
    case Count(_) => 4
    case SetKey(_) => 5
    case Copy => 6
    case Wait => 7
  }

  predicate IsRootStep(a: Action) { a.RootHead? || a.RootSucc? || a.RootSwap? || a.RootChunk? || a.RootTail? || a.RootSplice? || a.RootFill? || a.RootPublish? }

  /** Somebody else moved the head of the free list since the thread read it. */
  predicate HeadMoved(s: State, a: Action) requires Enabled(s, a) {
    || (a.RootSwap? && s.free != s.root.pc.ret)
    || (a.RootSplice? && s.free != s.heap[s.root.pc.item + s.n - 1].next)
    || (a.RecvPush? && s.free != s.heap[s.recv[a.j].cur].next)
  }

  /**
   * Every step of the root brings it nearer to the end of its call, unless its
   * compare-and-swap finds that another thread moved the head of the free list,
   * which it then reads again.
   */
  lemma RootAdvances(s: State, a: Action)
    requires Enabled(s, a) && IsRootStep(a)
    ensures RootDistance(Step(s, a).root.pc) < RootDistance(s.root.pc) <==> !HeadMoved(s, a)
    ensures HeadMoved(s, a) ==> Step(s, a).free == s.free && Step(s, a).root.pc == if a.RootSwap? then Head else Tail(s.root.pc.item)
  {
    hide ChunkNodes, ChunkPlaces, SplicePlaces, Reversed, Range;
  }

  /** The same for a receiver; and no thread moves another one. */
  lemma RecvAdvances(s: State, a: Action)
    requires Enabled(s, a) && !IsRootStep(a) && !a.RootEnter? && !a.RecvEnter?
    ensures |Step(s, a).recv| == |s.recv|
    ensures RecvDistance(Step(s, a).recv[a.j].pc) < RecvDistance(s.recv[a.j].pc) <==> !HeadMoved(s, a)
    ensures HeadMoved(s, a) ==> Step(s, a).free == s.free && Step(s, a).recv[a.j].pc.Reread?
    ensures Step(s, a).root == s.root && forall i :: 0 <= i < |s.recv| && i != a.j ==> Step(s, a).recv[i] == s.recv[i]
  { }

  /** And if nobody moves the head between that read and the compare-and-swap, it succeeds: for the root taking a handle, */
  lemma TakeWins(s: State)
    requires Enabled(s, RootHead) && s.free != NULL && s.free in s.heap
    ensures Enabled(Step(s, RootHead), RootSucc)
    ensures var t := Step(Step(s, RootHead), RootSucc); Enabled(t, RootSwap) && !HeadMoved(t, RootSwap)
  { }

  /** for the root putting a chunk on the list, */
  lemma SpliceWins(s: State)
    requires Enabled(s, RootTail)
    ensures var t := Step(s, RootTail); Enabled(t, RootSplice) && !HeadMoved(t, RootSplice)
  { }

  /** and for a receiver giving a handle back. */
  lemma PushWins(s: State, j: nat)
    requires Enabled(s, RecvReread(j))
    ensures var t := Step(s, RecvReread(j)); Enabled(t, RecvPush(j)) && !HeadMoved(t, RecvPush(j))
  { }
}
