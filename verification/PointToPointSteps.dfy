/** The invariant is kept by every step, hence holds in every state of every run. */
module PointToPointSteps {
  import opened PointToPoint
  import opened PointToPointInv
  import opened PointToPointProof

  // ---------- Resources ----------

  /** No handle is freed and none is made. */
  lemma ResourcesSame(s: State, t: State)
    requires ResourcesOk(s)
    requires t.sfrees == s.sfrees && t.rfrees == s.rfrees && t.sysLive == s.sysLive
    requires t.sends.Keys == s.sends.Keys && t.recvs.Keys == s.recvs.Keys
    requires forall a :: a in s.sends ==> t.sends[a].req == s.sends[a].req && (t.sends[a].stat == FREE <==> s.sends[a].stat == FREE)
    requires forall b :: b in s.recvs ==> (t.recvs[b].stat == FREE <==> s.recvs[b].stat == FREE)
    ensures ResourcesOk(t)
  { }

  lemma ResourcesFreeS(s: State, t: State, sid: nat)
    requires ResourcesOk(s) && sid in s.sends && s.sends[sid].stat != FREE
    requires t.sfrees == s.sfrees + [sid] && t.rfrees == s.rfrees && t.sysLive == s.sysLive - {sid}
    requires t.sends.Keys == s.sends.Keys && t.recvs.Keys == s.recvs.Keys
    requires forall a :: a in s.sends ==> t.sends[a].req == s.sends[a].req
    requires forall a :: a in s.sends && a != sid ==> (t.sends[a].stat == FREE <==> s.sends[a].stat == FREE)
    requires t.sends[sid].stat == FREE
    requires forall b :: b in s.recvs ==> (t.recvs[b].stat == FREE <==> s.recvs[b].stat == FREE)
    ensures ResourcesOk(t)
  {
    AppendMembers(s.sfrees, sid);
  }

  lemma ResourcesFreeR(s: State, t: State, rid: nat)
    requires ResourcesOk(s) && rid in s.recvs && s.recvs[rid].stat != FREE
    requires t.rfrees == s.rfrees + [rid] && t.sfrees == s.sfrees && t.sysLive == s.sysLive
    requires t.sends == s.sends && t.recvs.Keys == s.recvs.Keys
    requires forall b :: b in s.recvs && b != rid ==> t.recvs[b] == s.recvs[b]
    requires t.recvs[rid].stat == FREE
    ensures ResourcesOk(t)
  {
    AppendMembers(s.rfrees, rid);
  }

  // ---------- Steps that move no token ----------

  /** `t` is `s` with another record for the send `sid`, in the same phase. */
  ghost predicate QuietSend(s: State, t: State, sid: nat) {
    && sid in s.sends && sid in t.sends && t.sends == s.sends[sid := t.sends[sid]]
    && t.sends[sid].req == s.sends[sid].req && t.sends[sid].no == s.sends[sid].no
    && t.sends[sid].phase == s.sends[sid].phase
    && t.recvs == s.recvs && t.links == s.links && t.sq == s.sq && t.rq == s.rq
    && t.matchOf == s.matchOf && t.clock == s.clock && t.rfrees == s.rfrees
  }

  /** No token moves and no phase changes. */
  lemma TokensSame(s: State, t: State)
    requires LinksFine(s) && SqsFine(s) && RqsFine(s)
    requires t.links == s.links && t.sq == s.sq && t.rq == s.rq
    requires SamePhases(s, t, {}) && SameRPhases(s, t, {}) && SameNos(s, t, {})
    requires forall b :: b in s.recvs ==> b in t.recvs && t.recvs[b].no == s.recvs[b].no
    ensures LinksFine(t) && SqsFine(t) && RqsFine(t)
  {
    hide LinksOk, SqsOk, RqsOk, LinksSorted, SqsSorted, RqsSorted;
    LinksFrame(s, t, {});
    SqsFrame(s, t, {});
    RqsFrame(s, t, {});
    LinksSortedFrame(s, t, {});
    SqsSortedFrame(s, t, {});
    RqsSortedFrame(s, t, {});
  }

  lemma QuietPair(s: State, t: State, sid: nat)
    requires PairsOk(s) && QuietSend(s, t, sid)
    ensures PairsOk(t)
  {
    if sid in s.matchOf { PairAt(s, sid); }
    PairsKept(s, t, sid, 0);
  }

  lemma QuietOrder(s: State, t: State, sid: nat)
    requires PairsOk(s) && PairsOk(t) && QuietSend(s, t, sid)
    requires Apart(s) && QueueBeforeLink(s) && SendsInOrder(s) && RecvsInOrder(s)
    ensures Apart(t) && QueueBeforeLink(t) && SendsInOrder(t) && RecvsInOrder(t)
  {
    hide PairsOk, SendsInOrder, RecvsInOrder, Apart, QueueBeforeLink;
    ApartKept(s, t, sid, 0);
    QueueBeforeLinkSame(s, t, sid, 0);
    SendsInOrderKept(s, t, sid, 0);
    RecvsInOrderKept(s, t, sid, 0);
  }

  lemma QuietSendKeeps(s: State, t: State, sid: nat)
    requires Inv(s) && QuietSend(s, t, sid) && !t.err
    requires (sid in t.matchOf ==> t.matchOf[sid] in t.recvs) && SendOk(t, sid)
    requires ResourcesOk(t)
    ensures Inv(t)
  {
    hide PairsOk, HandlesOk, LinksFine, SqsFine, RqsFine, SendsInOrder, RecvsInOrder, ResourcesOk, SendOk, RecvOk, Apart, QueueBeforeLink;
    QuietPair(s, t, sid);
    QuietOrder(s, t, sid);
    HandlesKept(s, t, sid, 0);
    TokensSame(s, t);
  }

  /** `t` is `s` with another record for the receive `rid`, in the same phase. */
  ghost predicate QuietRecv(s: State, t: State, rid: nat) {
    && rid in s.recvs && rid in t.recvs && t.recvs == s.recvs[rid := t.recvs[rid]]
    && t.recvs[rid].req == s.recvs[rid].req && t.recvs[rid].no == s.recvs[rid].no
    && t.recvs[rid].phase == s.recvs[rid].phase
    && t.sends == s.sends && t.links == s.links && t.sq == s.sq && t.rq == s.rq
    && t.matchOf == s.matchOf && t.clock == s.clock && t.sfrees == s.sfrees && t.sysLive == s.sysLive
  }

  lemma QuietRecvKeeps(s: State, t: State, rid: nat)
    requires Inv(s) && QuietRecv(s, t, rid) && !t.err
    requires RecvOk(t, rid)
    requires ResourcesOk(t)
    ensures Inv(t)
  {
    hide LinksFine, SqsFine, RqsFine, SendsInOrder, RecvsInOrder, ResourcesOk, SendOk, RecvOk, Apart, QueueBeforeLink, HandlesOk;
    forall a | a in t.matchOf ensures PairOk(t, a) { PairAt(s, a); }
    HandlesKeptR(s, t, rid);
    TokensSame(s, t);
    OrderSameR(s, t, rid);
  }

  lemma HandlesKeptR(s: State, t: State, rid: nat)
    requires PairsOk(s) && HandlesOk(s) && PairsOk(t) && QuietRecv(s, t, rid) && RecvOk(t, rid)
    ensures HandlesOk(t)
  {
    hide SendOk, RecvOk;
    forall a | a in t.sends ensures SendOk(t, a) {
      if a in s.matchOf { PairAt(s, a); }
      SendOkFrame(s, t, a);
    }
    forall b | b in t.recvs ensures RecvOk(t, b) {
      if b != rid { RecvOkFrameR(s, t, b); }
    }
  }

  lemma RecvOkFrameR(s: State, t: State, b: nat)
    requires b in s.recvs && b in t.recvs && t.recvs[b] == s.recvs[b] && t.sends == s.sends && t.matchOf == s.matchOf
    requires t.clock == s.clock && RecvOk(s, b)
    ensures RecvOk(t, b)
  { }

  lemma OrderSameR(s: State, t: State, rid: nat)
    requires PairsOk(s) && PairsOk(t) && QuietRecv(s, t, rid)
    requires Apart(s) && QueueBeforeLink(s) && SendsInOrder(s) && RecvsInOrder(s)
    ensures Apart(t) && QueueBeforeLink(t) && SendsInOrder(t) && RecvsInOrder(t)
  {
    forall a, b | a in t.sends && b in t.matchOf ensures NotOvertaken(t, a, b) { PairAt(s, b); assert NotOvertaken(s, a, b); }
    forall r, a | r in t.recvs && a in t.matchOf ensures NotPassedOver(t, r, a) { PairAt(s, a); assert NotPassedOver(s, r, a); }
  }

  /** The send is where the invariant wants it, matched or not. */
  ghost predicate Placed(s: State, sid: nat) { sid in s.sends && (sid in s.matchOf ==> s.matchOf[sid] in s.recvs) && SendOk(s, sid) }

  lemma PlacedAt(s: State, sid: nat)
    requires Inv(s) && sid in s.sends
    ensures Placed(s, sid)
  {
    hide PairsOk, LinksFine, SqsFine, RqsFine, SendsInOrder, RecvsInOrder, ResourcesOk, HandlesOk, Apart, QueueBeforeLink, SendOk;
    SendAt(s, sid);
  }

  lemma FinishShOk(s: State, sid: nat, ret: Ret)
    requires Placed(s, sid) && !s.sends[sid].owner.Returned? && s.sends[sid].phase.Stage() >= 3
    requires ret != ERR_REQUEST && (ret == ERR_NRDY <==> s.sends[sid].phase.Refused?)
    ensures Placed(FinishSh(s, sid, ret), sid) && QuietSend(s, FinishSh(s, sid, ret), sid) && s.sends[sid].stat != FREE
  { }

  lemma FinishShResources(s: State, sid: nat, ret: Ret)
    requires ResourcesOk(s) && sid in s.sends && s.sends[sid].stat != FREE
    ensures ResourcesOk(FinishSh(s, sid, ret)) && FinishSh(s, sid, ret).err == s.err
  {
    hide ResourcesOk;
    ResourcesFreeS(s, FinishSh(s, sid, ret), sid);
  }

  lemma FinishShKeeps(s: State, sid: nat, ret: Ret)
    requires Inv(s) && sid in s.sends && !s.sends[sid].owner.Returned?
    requires s.sends[sid].phase.Stage() >= 3
    requires ret != ERR_REQUEST && (ret == ERR_NRDY <==> s.sends[sid].phase.Refused?)
    ensures Inv(FinishSh(s, sid, ret))
  {
    hide PairsOk, HandlesOk, LinksFine, SqsFine, RqsFine, SendsInOrder, RecvsInOrder, ResourcesOk, Apart, QueueBeforeLink, FinishSh, SendOk, QuietSend;
    PlacedAt(s, sid);
    FinishShOk(s, sid, ret);
    FinishShResources(s, sid, ret);
    QuietSendKeeps(s, FinishSh(s, sid, ret), sid);
  }

  lemma LeaveBufferedOk(s: State, sid: nat)
    requires Placed(s, sid) && s.sends[sid].owner == Running
    requires 1 <= s.sends[sid].phase.Stage() <= 2 && s.sends[sid].req.MayLeave()
    ensures Placed(LeaveBuffered(s, sid), sid) && QuietSend(s, LeaveBuffered(s, sid), sid)
    ensures s.sends[sid].stat != FREE && LeaveBuffered(s, sid).sends[sid].stat != FREE
  { }

  lemma LeaveBufferedResources(s: State, sid: nat)
    requires ResourcesOk(s) && sid in s.sends && s.sends[sid].stat != FREE
    ensures ResourcesOk(LeaveBuffered(s, sid)) && LeaveBuffered(s, sid).err == s.err
  {
    hide ResourcesOk;
    ResourcesSame(s, LeaveBuffered(s, sid));
  }

  lemma LeaveBufferedKeeps(s: State, sid: nat)
    requires Inv(s) && sid in s.sends && s.sends[sid].owner == Running
    requires 1 <= s.sends[sid].phase.Stage() <= 2 && s.sends[sid].req.MayLeave()
    ensures Inv(LeaveBuffered(s, sid))
  {
    hide PairsOk, HandlesOk, LinksFine, SqsFine, RqsFine, SendsInOrder, RecvsInOrder, ResourcesOk, Apart, QueueBeforeLink, LeaveBuffered, SendOk, QuietSend;
    PlacedAt(s, sid);
    LeaveBufferedOk(s, sid);
    LeaveBufferedResources(s, sid);
    QuietSendKeeps(s, LeaveBuffered(s, sid), sid);
  }

  /** The record of a send whose owner moves on without leaving. */
  lemma PutOwnerKeeps(s: State, sid: nat, o: Owner, st: Stat)
    requires Inv(s) && sid in s.sends && !o.Returned? && !s.sends[sid].owner.Returned?
    requires st == SendCode(s.sends[sid].phase.Stage(), o)
    requires SendOwnerOk(s.sends[sid].(owner := o, stat := st))
    ensures Inv(s.PutS(sid, s.sends[sid].(owner := o, stat := st)))
  {
    hide HandlesOk, LinksFine, SqsFine, RqsFine, SendsInOrder, RecvsInOrder, ResourcesOk, Apart, QueueBeforeLink;
    var t := s.PutS(sid, s.sends[sid].(owner := o, stat := st));
    SendAt(s, sid);
    PutOwnerOk(s, t, sid);
    hide SendOk;
    ResourcesSame(s, t);
    QuietSendKeeps(s, t, sid);
  }

  lemma PutOwnerOk(s: State, t: State, sid: nat)
    requires sid in s.sends && sid in t.sends && t == s.(sends := s.sends[sid := t.sends[sid]])
    requires t.sends[sid] == s.sends[sid].(owner := t.sends[sid].owner, stat := t.sends[sid].stat)
    requires !s.sends[sid].owner.Returned? && !t.sends[sid].owner.Returned?
    requires t.sends[sid].stat == SendCode(t.sends[sid].phase.Stage(), t.sends[sid].owner) && SendOwnerOk(t.sends[sid])
    requires sid in s.matchOf ==> s.matchOf[sid] in s.recvs
    requires SendOk(s, sid)
    ensures SendOk(t, sid)
    ensures t.sends[sid].stat != FREE && s.sends[sid].stat != FREE
  { }

  lemma RemoteWaitTailKeeps(s: State, sid: nat)
    requires Inv(s) && sid in s.sends && s.sends[sid].req.Remote() && s.sends[sid].stat != CREATE
    requires s.sends[sid].owner == Running || s.sends[sid].owner.FirstWait?
    requires s.sends[sid].req.mode == READY ==> s.sends[sid].stat != PEND_STRT
    ensures Inv(RemoteWaitTail(s, sid))
  {
    hide Inv;
    var h := s.sends[sid];
    SendAt(s, sid);
    if h.stat == MATCH { FinishShKeeps(s, sid, SUCCESS); }
    else if h.stat == PEND_NRDY { FinishShKeeps(s, sid, ERR_NRDY); FlagFalse(FinishSh(s, sid, ERR_NRDY)); }
    else if h.req.MayLeave() { LeaveBufferedKeeps(s, sid); }
    else { PutOwnerKeeps(s, sid, Waiting(false), if h.stat == PEND_STRT then PEND_WAIT else PEND_DWAT); }
  }

  lemma FlagFalse(s: State)
    ensures s.Flag(false) == s
  { }

  lemma WaitShKeeps(s: State, sid: nat)
    requires Inv(s) && Enabled(s, SWait(sid))
    ensures Inv(WaitSh(s, sid))
  {
    hide Inv;
    var h := s.sends[sid];
    SendAt(s, sid);
    if !h.req.Remote() {
      if h.stat == MATCH { FinishShKeeps(s, sid, SUCCESS); }
      else if h.req.MayLeave() { LeaveBufferedKeeps(s, sid); }
      else { PutOwnerKeeps(s, sid, Waiting(false), PEND_WAIT); }
    } else if h.stat == PEND_STRT && h.req.mode == READY {
      PutOwnerKeeps(s, sid, FirstWait(false), PEND_STRT);
    } else {
      RemoteWaitTailKeeps(s, sid);
    }
  }

  lemma WakeShKeeps(s: State, sid: nat)
    requires Inv(s) && Enabled(s, SWake(sid))
    ensures Inv(WakeSh(s, sid))
  {
    hide Inv;
    var h := s.sends[sid];
    SendAt(s, sid);
    if h.owner.FirstWait? {
      if h.stat == PEND_STRT { PutOwnerKeeps(s, sid, FirstWait(false), PEND_STRT); }
      else { RemoteWaitTailKeeps(s, sid); }
    } else if h.stat == MATCH {
      FinishShKeeps(s, sid, SUCCESS);
      FlagFalse(FinishSh(s, sid, SUCCESS));
    } else {
      PutOwnerKeeps(s, sid, Waiting(false), h.stat);
    }
  }

  lemma ScribbleOk(s: State, sid: nat, bytes: seq<Byte>)
    requires Placed(s, sid) && Enabled(s, SScribble(sid, bytes))
    ensures Placed(Scribble(s, sid, bytes), sid) && QuietSend(s, Scribble(s, sid, bytes), sid)
  { }

  lemma ScribbleResources(s: State, sid: nat, bytes: seq<Byte>)
    requires ResourcesOk(s) && sid in s.sends
    ensures ResourcesOk(Scribble(s, sid, bytes)) && Scribble(s, sid, bytes).err == s.err
  {
    hide ResourcesOk;
    ResourcesSame(s, Scribble(s, sid, bytes));
  }

  lemma ScribbleKeeps(s: State, sid: nat, bytes: seq<Byte>)
    requires Inv(s) && Enabled(s, SScribble(sid, bytes))
    ensures Inv(Scribble(s, sid, bytes))
  {
    hide PairsOk, HandlesOk, LinksFine, SqsFine, RqsFine, SendsInOrder, RecvsInOrder, ResourcesOk, Apart, QueueBeforeLink, Scribble, SendOk, QuietSend;
    PlacedAt(s, sid);
    ScribbleOk(s, sid, bytes);
    ScribbleResources(s, sid, bytes);
    QuietSendKeeps(s, Scribble(s, sid, bytes), sid);
  }

  lemma FinishRhKeeps(s: State, rid: nat)
    requires Inv(s) && rid in s.recvs && s.recvs[rid].stat == MATCH
    ensures Inv(FinishRh(s, rid))
  {
    hide HandlesOk, LinksFine, SqsFine, RqsFine, SendsInOrder, RecvsInOrder, ResourcesOk, Apart, QueueBeforeLink;
    RecvAt(s, rid);
    ResourcesFreeR(s, FinishRh(s, rid), rid);
    QuietRecvKeeps(s, FinishRh(s, rid), rid);
  }

  lemma BlockRhKeeps(s: State, rid: nat, st: Stat)
    requires Inv(s) && rid in s.recvs && !s.recvs[rid].owner.Returned? && s.recvs[rid].stat.Pend()
    requires st == RecvCode(s.recvs[rid].phase, Waiting(false))
    ensures Inv(s.PutR(rid, s.recvs[rid].(stat := st, owner := Waiting(false))))
  {
    hide HandlesOk, LinksFine, SqsFine, RqsFine, SendsInOrder, RecvsInOrder, ResourcesOk, Apart, QueueBeforeLink;
    RecvAt(s, rid);
    var t := s.PutR(rid, s.recvs[rid].(stat := st, owner := Waiting(false)));
    ResourcesSame(s, t);
    QuietRecvKeeps(s, t, rid);
  }

  lemma WaitRhKeeps(s: State, rid: nat)
    requires Inv(s) && Enabled(s, RWait(rid))
    ensures Inv(WaitRh(s, rid))
  {
    hide Inv;
    RecvAt(s, rid);
    if s.recvs[rid].stat == MATCH { FinishRhKeeps(s, rid); }
    else { BlockRhKeeps(s, rid, if s.recvs[rid].stat == PEND_STRT then PEND_WAIT else PEND_DWAT); }
  }

  lemma WakeRhKeeps(s: State, rid: nat)
    requires Inv(s) && Enabled(s, RWake(rid))
    ensures Inv(WakeRh(s, rid))
  {
    hide Inv;
    RecvAt(s, rid);
    if s.recvs[rid].stat == MATCH { FinishRhKeeps(s, rid); }
    else { BlockRhKeeps(s, rid, s.recvs[rid].stat); }
  }
}
