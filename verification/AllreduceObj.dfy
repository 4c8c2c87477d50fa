/**
 * The code of `tmpi_ardco_allreduce` on shared fields updated in place, cut
 * where another thread can come in between.  Every piece is proved to do the
 * step that `Allreduce` says.
 */
module AllreduceObj {
  import opened Basics
  import opened Counting
  import opened ReduceOps
  import opened Allreduce
  import opened AllreduceProof
  import opened AllreduceSteps

  class AllreduceObject {
    var n: nat
    var sub: seq<Sub>
    var subp: nat
    var thread: seq<Thread>
    // history
    ghost var ops: seq<Op>
    ghost var stage: seq<Stage>
    ghost var width: seq<nat>
    ghost var got: seq<bool>
    ghost var past: seq<nat>
    ghost var left: seq<nat>
    ghost var contrib: seq<seq<seq<Int32>>>
    ghost var result: seq<seq<Shared>>
    ghost var codes: seq<seq<int>>

    ghost function St(): State
      reads this
    { State(n, sub, subp, thread, ops, stage, width, got, past, left, contrib, result, codes) }

    ghost method Record(s: State)
      modifies this`ops, this`stage, this`width, this`got, this`past, this`left, this`contrib, this`result, this`codes
      ensures ops == s.ops && stage == s.stage && width == s.width && got == s.mem && past == s.past && left == s.left
      ensures contrib == s.contrib && result == s.result && codes == s.codes
    {
      ops, stage, width, got, past, left := s.ops, s.stage, s.width, s.mem, s.past, s.left;
      contrib, result, codes := s.contrib, s.result, s.codes;
    }

    /** `tmpi_ardco_create` */
    constructor (groupsize: nat)
      requires groupsize >= 2
      ensures St() == INIT(groupsize) && Inv(St())
    {
      n, subp := groupsize, 0;
      sub := [Sub(-1, 0, Nothing), Sub(-1, 0, Nothing)];
      thread := seq(groupsize, i => Thread(0, [], SUM, 0, Away));
      new;
      Record(INIT(groupsize));
      InitOk(groupsize);
    }

    method Stand(i: nat, pc: Pc)
      requires i < |thread|
      modifies this`thread
      ensures thread == old(thread)[i := old(thread)[i].(pc := pc)]
    { thread := thread[i := thread[i].(pc := pc)]; }

    method Write(k: nat, u: Sub)
      requires k < |sub|
      modifies this`sub
      ensures sub == old(sub)[k := u]
    { sub := sub[k := u]; }

    method Enter(i: nat, send: seq<Int32>, op: Op)
      requires Inv(St()) && Enabled(St(), DoEnter(i, send, op))
      modifies this
      ensures St() == Step(old(St()), DoEnter(i, send, op)) && Inv(St())
      ensures thread[i].send == send && thread[i].op == op && contrib == old(contrib)[i := old(contrib)[i] + [send]]
    {
      hide Inv;
      ghost var s := St();
      StepKeeps(s, DoEnter(i, send, op));
      thread := thread[i := Thread(subp, send, op, 0, Test)];
      Record(Step(s, DoEnter(i, send, op)));
    }

    method TestAvail(i: nat)
      requires Inv(St()) && Enabled(St(), DoTest(i))
      modifies this
      ensures St() == Step(old(St()), DoTest(i)) && Inv(St())
    {
      hide Inv;
      ghost var s := St();
      StepKeeps(s, DoTest(i));
      if sub[thread[i].sub].avail == -1 { Stand(i, Elect); } else { Stand(i, Wait); }
      Record(Step(s, DoTest(i)));
    }

    /** `cas32(&(subp->avail), -1, 0)` */
    method RunForElection(i: nat) returns (won: bool)
      requires Inv(St()) && Enabled(St(), DoElect(i))
      modifies this
      ensures St() == Step(old(St()), DoElect(i)) && Inv(St())
      ensures won == (old(sub)[old(thread)[i].sub].avail == -1)
    {
      hide Inv;
      ghost var s := St();
      StepKeeps(s, DoElect(i));
      var k := thread[i].sub;
      won := sub[k].avail == -1;
      if won {
        Write(k, sub[k].(avail := 0));
        Stand(i, Fill);
      } else {
        Stand(i, Wait);
      }
      Record(Step(s, DoElect(i)));
    }

    /** The winner fills the sub-object; `mem` tells whether `cm_alloc` had memory. */
    method FillSub(i: nat, mem: bool)
      requires Inv(St()) && Enabled(St(), DoFill(i, mem))
      modifies this
      ensures St() == Step(old(St()), DoFill(i, mem)) && Inv(St())
    {
      hide Inv;
      ghost var s := St();
      StepKeeps(s, DoFill(i, mem));
      var t := thread[i];
      if mem {
        Write(t.sub, sub[t.sub].(data := Res(t.send)));
        thread := thread[i := t.(ret := 0, pc := Announce)];
      } else {
        Write(t.sub, sub[t.sub].(data := Nothing));
        thread := thread[i := t.(ret := -2, pc := Announce)];
      }
      Record(Step(s, DoFill(i, mem)));
    }

    method AnnounceRound(i: nat)
      requires Inv(St()) && Enabled(St(), DoAnnounce(i))
      modifies this
      ensures St() == Step(old(St()), DoAnnounce(i)) && Inv(St())
    {
      hide Inv;
      ghost var s := St();
      StepKeeps(s, DoAnnounce(i));
      var k := thread[i].sub;
      Write(k, sub[k].(avail := 1));
      Stand(i, Gather);
      Record(Step(s, DoAnnounce(i)));
    }

    /** `while (subp->avail==0)`: the thread gets on if and only if the round is announced. */
    method TryWait(i: nat) returns (on: bool)
      requires Inv(St()) && Known(St(), i) && thread[i].pc.Wait?
      modifies this
      ensures Inv(St()) && on == Enabled(old(St()), DoPass(i))
      ensures St() == if on then Step(old(St()), DoPass(i)) else old(St())
    {
      hide Inv;
      ghost var s := St();
      on := sub[thread[i].sub].avail != 0;
      if on {
        StepKeeps(s, DoPass(i));
        Stand(i, Element(0));
        Record(Step(s, DoPass(i)));
      }
    }

    /** One atomic operation of `rdc_int_max`, `rdc_int_min` or `rdc_int_sum`, if there are data */
    method CombineElement(i: nat)
      requires Inv(St()) && Enabled(St(), DoElement(i))
      modifies this
      ensures St() == Step(old(St()), DoElement(i)) && Inv(St())
    {
      hide Inv;
      ghost var s := St();
      StepKeeps(s, DoElement(i));
      if sub[thread[i].sub].data == Nothing {
        thread := thread[i := thread[i].(ret := -2, pc := Count)];
      } else {
        CombineData(i);
      }
      Record(Step(s, DoElement(i)));
    }

    method CombineData(i: nat)
      requires Enabled(St(), DoElement(i)) && Mine(St(), i).data.Res?
      modifies this`sub, this`thread
      ensures St() == Step(old(St()), DoElement(i))
    {
      var t := thread[i];
      var vals, e := sub[t.sub].data.vals, t.pc.e;
      if e >= Min(|t.send|, |vals|) {
        Stand(i, Count);
      } else if t.op == SUM {
        Write(t.sub, sub[t.sub].(data := Res(vals[e := Apply(SUM, vals[e], t.send[e])])));
        Stand(i, Element(e + 1));
      } else if (if t.op == MAX then t.send[e] <= vals[e] else t.send[e] >= vals[e]) {
        Stand(i, Element(e + 1));
      } else {
        Stand(i, Pc.Swap(e, vals[e]));
      }
    }

    /** `cas32(&(res[i]), tmp1, tmp2)` */
    method SwapElement(i: nat) returns (ok: bool)
      requires Inv(St()) && Enabled(St(), DoSwap(i))
      modifies this
      ensures St() == Step(old(St()), DoSwap(i)) && Inv(St())
      ensures ok <==> thread[i].pc == Element(old(thread)[i].pc.e + 1)
    {
      hide Inv;
      ghost var s := St();
      StepKeeps(s, DoSwap(i));
      var t := thread[i];
      var vals, e := sub[t.sub].data.vals, t.pc.e;
      ok := vals[e] == t.pc.seen;
      if ok { Write(t.sub, sub[t.sub].(data := Res(vals[e := t.send[e]]))); }
      Stand(i, Element(if ok then e + 1 else e));
      Record(Step(s, DoSwap(i)));
    }

    /** `subp->avail++` */
    method CountSelf(i: nat)
      requires Inv(St()) && Enabled(St(), DoCount(i))
      modifies this
      ensures St() == Step(old(St()), DoCount(i)) && Inv(St())
    {
      hide Inv;
      ghost var s := St();
      StepKeeps(s, DoCount(i));
      var k := thread[i].sub;
      Write(k, sub[k].(avail := sub[k].avail + 1));
      Stand(i, Gather);
      Record(Step(s, DoCount(i)));
    }

    /** The wait for `group_size` */
    method TryGather(i: nat) returns (on: bool)
      requires Inv(St()) && Known(St(), i) && thread[i].pc.Gather?
      modifies this
      ensures Inv(St()) && on == Enabled(old(St()), DoGather(i))
      ensures St() == if on then Step(old(St()), DoGather(i)) else old(St())
    {
      hide Inv;
      ghost var s := St();
      on := sub[thread[i].sub].avail == n;
      if on {
        StepKeeps(s, DoGather(i));
        Stand(i, Copy);
        Record(Step(s, DoGather(i)));
      }
    }

    /** The result is copied out, if there is one; the call will return `ret`. */
    method CopyResult(i: nat) returns (out: Shared, ret: int)
      requires Inv(St()) && Enabled(St(), DoCopy(i))
      modifies this
      ensures St() == Step(old(St()), DoCopy(i)) && Inv(St())
      ensures result[i] == old(result)[i] + [out] && codes[i] == old(codes)[i] + [ret]
    {
      hide Inv;
      ghost var s := St();
      StepKeeps(s, DoCopy(i));
      var t := thread[i];
      out, ret := Nothing, t.ret;
      if sub[t.sub].data.Res? {
        var vals := sub[t.sub].data.vals;
        out := Res(vals[..Min(|t.send|, |vals|)]);
      }
      Stand(i, Done);
      Record(Step(s, DoCopy(i)));
    }

    /** `anf32(&(subp->done), 1)==ardco->group_size` */
    method CountDone(i: nat) returns (last: bool)
      requires Inv(St()) && Enabled(St(), DoDone(i))
      modifies this
      ensures St() == Step(old(St()), DoDone(i)) && Inv(St())
      ensures last <==> thread[i].pc.Clear?
    {
      hide Inv;
      ghost var s := St();
      StepKeeps(s, DoDone(i));
      var k := thread[i].sub;
      Write(k, sub[k].(done := sub[k].done + 1));
      last := sub[k].done == n;
      Stand(i, if last then Clear else Check);
      Record(Step(s, DoDone(i)));
    }

    /** The last one frees the data and resets `done`, */
    method ClearSub(i: nat)
      requires Inv(St()) && Enabled(St(), DoClear(i))
      modifies this
      ensures St() == Step(old(St()), DoClear(i)) && Inv(St())
    {
      hide Inv;
      ghost var s := St();
      StepKeeps(s, DoClear(i));
      var k := thread[i].sub;
      Write(k, sub[k].(data := Nothing, done := 0));
      Stand(i, Reopen);
      Record(Step(s, DoClear(i)));
    }

    /** and then reopens `avail`. */
    method ReopenSub(i: nat)
      requires Inv(St()) && Enabled(St(), DoReopen(i))
      modifies this
      ensures St() == Step(old(St()), DoReopen(i)) && Inv(St())
    {
      hide Inv;
      ghost var s := St();
      StepKeeps(s, DoReopen(i));
      var k := thread[i].sub;
      Write(k, sub[k].(avail := -1));
      Stand(i, Check);
      Record(Step(s, DoReopen(i)));
    }

    /** `if (ardco->subp==subp)` */
    method CheckPointer(i: nat)
      requires Inv(St()) && Enabled(St(), DoCheck(i))
      modifies this
      ensures St() == Step(old(St()), DoCheck(i)) && Inv(St())
    {
      hide Inv;
      ghost var s := St();
      StepKeeps(s, DoCheck(i));
      Stand(i, if subp == thread[i].sub then Switch else Away);
      Record(Step(s, DoCheck(i)));
    }

    /** `casp` on the pointer */
    method SwitchPointer(i: nat)
      requires Inv(St()) && Enabled(St(), DoSwitch(i))
      modifies this
      ensures St() == Step(old(St()), DoSwitch(i)) && Inv(St())
    {
      hide Inv;
      ghost var s := St();
      StepKeeps(s, DoSwitch(i));
      if subp == thread[i].sub { subp := if thread[i].sub == 0 then 1 else 0; }
      Stand(i, Away);
      Record(Step(s, DoSwitch(i)));
    }
  }
}
