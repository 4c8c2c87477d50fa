/**
 * The double-buffered allreduce (`tmpi_ardco_allreduce` in `reduce.c`).
 *
 * `n` threads call it over and over.  They share two sub-objects and a pointer
 * to the current one; a thread works on the one the pointer shows when it
 * enters.  Every access to shared memory that another thread can notice is one
 * step of the thread that does it.
 *
 * `ops`, `stage`, `width`, `mem`, `past`, `left`, `contrib`, `result` and
 * `codes` are history: no branch of a step reads them, but for the rule that
 * all threads name the same operator in the same call.  `|stage| - 1` is the
 * number of switches; `mem` says of each round whether there was memory for its
 * data, and `codes` what the calls of each thread return.
 */
module Allreduce {
  import opened Basics
  import opened Counting
  import opened ReduceOps

  /** What the data pointer leads to; nothing if there was no memory for it */
  datatype Shared = Nothing | Res(vals: seq<Int32>)

  /** `struct _sub`; the length of the data stands for `count` */
  datatype Sub = Sub(avail: int, done: nat, data: Shared)

  /**
   * Where a thread stands: before it reads `avail`; before the election;
   * before it fills the sub-object, having won; before it makes it available;
   * before it finds it available; before the atomic operation on element `e`;
   * before the compare-and-swap of element `e`; before it counts itself;
   * before it finds everybody counted; before it copies the result; before it
   * counts itself as done; the last one, before it gives the data back and
   * before it reopens `avail`; before it looks at the pointer; before the
   * compare-and-swap of the pointer.
   */
  datatype Pc =
    | Away | Test | Elect | Fill | Announce | Wait | Element(e: nat) | Swap(e: nat, seen: Int32) | Count
    | Gather | Copy | Done | Clear | Reopen | Check | Switch
  {
    predicate Uncounted() { Test? || Elect? || Fill? || Announce? || Wait? || Element? || Swap? || Count? }
    predicate Undone() { Gather? || Copy? || Done? }
    predicate Leaving() { Clear? || Reopen? || Check? || Switch? }
    predicate Combining() { Element? || Swap? || Count? }
    predicate Did(e: nat) { Announce? || Count? || (Element? && this.e > e) || (Swap? && this.e > e) }
  }

  /** `ret` is the return code so far. */
  datatype Thread = Thread(sub: nat, send: seq<Int32>, op: Op, ret: int, pc: Pc)

  /** What happens with the sub-object of a round: nothing yet, elected, filled, in use, being cleared, reopened */
  datatype Stage = Open | Elected(who: nat) | Filled(who: nat) | Running | Clearing(who: nat) | Cleared(who: nat) | Over

  datatype State = State(
    n: nat, sub: seq<Sub>, subp: nat, thread: seq<Thread>,
    ops: seq<Op>, stage: seq<Stage>, width: seq<nat>, mem: seq<bool>, past: seq<nat>, left: seq<nat>,
    contrib: seq<seq<seq<Int32>>>, result: seq<seq<Shared>>, codes: seq<seq<int>>)

  // ---------- Steps ----------

  datatype Action =
    | DoEnter(i: nat, send: seq<Int32>, op: Op) | DoTest(i: nat) | DoElect(i: nat) | DoFill(i: nat, got: bool) | DoAnnounce(i: nat)
    | DoPass(i: nat) | DoElement(i: nat) | DoSwap(i: nat) | DoCount(i: nat) | DoGather(i: nat) | DoCopy(i: nat)
    | DoDone(i: nat) | DoClear(i: nat) | DoReopen(i: nat) | DoCheck(i: nat) | DoSwitch(i: nat)

  predicate Sized(s: State) {
    |s.thread| == |s.past| == |s.left| == |s.contrib| == |s.result| == |s.codes| == s.n && |s.sub| == 2 && s.subp < 2 && |s.stage| > 0
  }

  predicate Known(s: State, i: nat) { Sized(s) && i < s.n && s.thread[i].sub < 2 }

  /** The sub-object that thread `i` works on */
  function Mine(s: State, i: nat): Sub requires Known(s, i) { s.sub[s.thread[i].sub] }

  /** The round of the call that thread `i` is in (history) */
  function Round(s: State, i: nat): nat requires Known(s, i) { if s.contrib[i] == [] then 0 else |s.contrib[i]| - 1 }

  /** All threads name the same operator in the same call (section 4.9.3 of MPI 1.1). */
  predicate Enabled(s: State, a: Action) {
    Known(s, a.i) &&
    var i := a.i;
    var t := s.thread[i];
    match a
    case DoEnter(_, send, op) => t.pc.Away? && (|s.contrib[i]| < |s.ops| ==> op == s.ops[|s.contrib[i]|])
    case DoTest(_) => t.pc.Test?
    case DoElect(_) => t.pc.Elect?
    case DoFill(_, _) => t.pc.Fill?
    case DoAnnounce(_) => t.pc.Announce?
    case DoPass(_) => t.pc.Wait? && Mine(s, i).avail != 0
    case DoElement(_) => t.pc.Element?
    case DoSwap(_) => t.pc.Swap? && Mine(s, i).data.Res? && t.pc.e < |t.send| && t.pc.e < |Mine(s, i).data.vals|
    case DoCount(_) => t.pc.Count?
    case DoGather(_) => t.pc.Gather? && Mine(s, i).avail == s.n
    case DoCopy(_) => t.pc.Copy?
    case DoDone(_) => t.pc.Done?
    case DoClear(_) => t.pc.Clear?
    case DoReopen(_) => t.pc.Reopen?
    case DoCheck(_) => t.pc.Check?
    case DoSwitch(_) => t.pc.Switch?
  }

  function At(s: State, i: nat, pc: Pc): State requires Known(s, i) { s.(thread := s.thread[i := s.thread[i].(pc := pc)]) }

  function SetSub(s: State, i: nat, u: Sub): State requires Known(s, i) { s.(sub := s.sub[s.thread[i].sub := u]) }

  function SetStage(s: State, k: nat, g: Stage): State { if k < |s.stage| then s.(stage := s.stage[k := g]) else s }

  function EnterStep(s: State, i: nat, send: seq<Int32>, op: Op): State
    requires Known(s, i)
  {
    s.(thread := s.thread[i := Thread(s.subp, send, op, 0, Test)], contrib := s.contrib[i := s.contrib[i] + [send]],
       ops := if |s.contrib[i]| < |s.ops| then s.ops else s.ops + [op])
  }

  function ElectStep(s: State, i: nat): State
    requires Known(s, i)
  {
    if Mine(s, i).avail == -1 then SetStage(At(SetSub(s, i, Mine(s, i).(avail := 0)), i, Fill), Round(s, i), Elected(i))
    else At(s, i, Wait)
  }

  /** The return code of a round, by whether there was memory for its data */
  function CodeOf(got: bool): int { if got then 0 else -2 }

  /** The thread's return code becomes `ret`. */
  function Coded(s: State, i: nat, ret: int): State
    requires Known(s, i)
  { s.(thread := s.thread[i := s.thread[i].(ret := ret)]) }

  /** `got`: `cm_alloc` had memory for the data. */
  function FillStep(s: State, i: nat, got: bool): State
    requires Known(s, i)
  {
    var u := Mine(s, i).(data := if got then Res(s.thread[i].send) else Nothing);
    SetStage(At(SetSub(Coded(s, i, CodeOf(got)), i, u), i, Announce), Round(s, i), Filled(i)).(
      width := s.width + [|s.thread[i].send|], mem := s.mem + [got])
  }

  function AnnounceStep(s: State, i: nat): State
    requires Known(s, i)
  {
    SetStage(At(SetSub(s, i, Mine(s, i).(avail := 1)), i, Gather), Round(s, i), Running).(past := s.past[i := s.past[i] + 1])
  }

  /** The number of elements to combine or to copy: `MIN(count, subp->count)` */
  function Todo(s: State, i: nat): nat
    requires Known(s, i) && Mine(s, i).data.Res?
  { Min(|s.thread[i].send|, |Mine(s, i).data.vals|) }

  function SetElem(s: State, i: nat, e: nat, v: Int32): State
    requires Known(s, i) && Mine(s, i).data.Res? && e < |Mine(s, i).data.vals|
  { At(SetSub(s, i, Mine(s, i).(data := Res(Mine(s, i).data.vals[e := v]))), i, Element(e + 1)) }

  /**
   * One atomic operation on element `e`: the addition, or the read of the other
   * two operators; nothing to do if there are no data.
   */
  function ElementStep(s: State, i: nat): State
    requires Known(s, i) && s.thread[i].pc.Element?
  {
    if !Mine(s, i).data.Res? then At(Coded(s, i, -2), i, Count) else
    var t, e, vals := s.thread[i], s.thread[i].pc.e, Mine(s, i).data.vals;
    if e >= Todo(s, i) then At(s, i, Count)
    else match t.op
      case SUM => SetElem(s, i, e, Apply(SUM, vals[e], t.send[e]))
      case MAX => At(s, i, if t.send[e] <= vals[e] then Element(e + 1) else Swap(e, vals[e]))
      case MIN => At(s, i, if t.send[e] >= vals[e] then Element(e + 1) else Swap(e, vals[e]))
  }

  function SwapStep(s: State, i: nat): State
    requires Known(s, i) && s.thread[i].pc.Swap? && Mine(s, i).data.Res?
    requires s.thread[i].pc.e < |s.thread[i].send| && s.thread[i].pc.e < |Mine(s, i).data.vals|
  {
    var t, e := s.thread[i], s.thread[i].pc.e;
    if Mine(s, i).data.vals[e] == t.pc.seen then SetElem(s, i, e, t.send[e]) else At(s, i, Element(e))
  }

  function CountStep(s: State, i: nat): State
    requires Known(s, i)
  { At(SetSub(s, i, Mine(s, i).(avail := Mine(s, i).avail + 1)), i, Gather).(past := s.past[i := s.past[i] + 1]) }

  function CopyStep(s: State, i: nat): State
    requires Known(s, i)
  {
    var out := if Mine(s, i).data.Res? then Res(Mine(s, i).data.vals[..Todo(s, i)]) else Nothing;
    At(s, i, Done).(result := s.result[i := s.result[i] + [out]], codes := s.codes[i := s.codes[i] + [s.thread[i].ret]])
  }

  function DoneStep(s: State, i: nat): State
    requires Known(s, i)
  {
    var u := Mine(s, i);
    var last := u.done + 1 == s.n;
    var s1 := At(SetSub(s, i, u.(done := u.done + 1)), i, if last then Clear else Check).(left := s.left[i := s.left[i] + 1]);
    if last then SetStage(s1, Round(s, i), Clearing(i)) else s1
  }

  function ClearStep(s: State, i: nat): State
    requires Known(s, i)
  { SetStage(At(SetSub(s, i, Sub(Mine(s, i).avail, 0, Nothing)), i, Reopen), Round(s, i), Cleared(i)) }

  function ReopenStep(s: State, i: nat): State
    requires Known(s, i)
  { SetStage(At(SetSub(s, i, Mine(s, i).(avail := -1)), i, Check), Round(s, i), Over) }

  function SwitchStep(s: State, i: nat): State
    requires Known(s, i)
  {
    if s.subp == s.thread[i].sub then At(s, i, Away).(subp := 1 - s.subp, stage := s.stage + [Open]) else At(s, i, Away)
  }

  function Step(s: State, a: Action): State
    requires Enabled(s, a)
  {
    match a
    case DoEnter(i, send, op) => EnterStep(s, i, send, op)
    case DoTest(i) => At(s, i, if Mine(s, i).avail == -1 then Elect else Wait)
    case DoElect(i) => ElectStep(s, i)
    case DoFill(i, got) => FillStep(s, i, got)
    case DoAnnounce(i) => AnnounceStep(s, i)
    case DoPass(i) => At(s, i, Element(0))
    case DoElement(i) => ElementStep(s, i)
    case DoSwap(i) => SwapStep(s, i)
    case DoCount(i) => CountStep(s, i)
    case DoGather(i) => At(s, i, Copy)
    case DoCopy(i) => CopyStep(s, i)
    case DoDone(i) => DoneStep(s, i)
    case DoClear(i) => ClearStep(s, i)
    case DoReopen(i) => ReopenStep(s, i)
    case DoCheck(i) => At(s, i, if s.subp == s.thread[i].sub then Switch else Away)
    case DoSwitch(i) => SwitchStep(s, i)
  }

  /** `tmpi_ardco_create` */
  function INIT(n: nat): State {
    State(n, [Sub(-1, 0, Nothing), Sub(-1, 0, Nothing)], 0, seq(n, i => Thread(0, [], SUM, 0, Away)),
          [], [Open], [], [], seq(n, i => 0), seq(n, i => 0), seq(n, i => []), seq(n, i => []), seq(n, i => []))
  }

  ghost predicate Next(s: State, s': State) { exists a :: Enabled(s, a) && s' == Step(s, a) }

  ghost predicate IsRun(n: nat, run: seq<State>) {
    n >= 2 && run != [] && run[0] == INIT(n) && forall t :: 0 <= t < |run| - 1 ==> Next(run[t], run[t + 1])
  }
}
