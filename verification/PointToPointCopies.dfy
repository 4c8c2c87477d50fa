/**
 * The copies that a receiver keeps of short messages that nobody expects
 * (`tmpi_rmds_handle`): each is made once, holds the message, and is given
 * back when a receive takes it.
 */
module PointToPointCopies {
  import opened Basics
  import opened PointToPoint
  import opened PointToPointInv
  import opened PointToPointSteps
  import opened PointToPointMoves
  import opened PointToPointArrivals
  import opened PointToPointTheorems

  /** The receiver keeps a copy of the data of a send in this phase. */
  predicate HasCopy(p: SPhase) { p.Queued? && p.e.RemoteE? && p.e.data.Some? }

  /** A copy is of the whole message, and its send is not matched. */
  lemma CopyHolds(s: State, sid: nat)
    requires Reachable(s) && sid in s.sends && HasCopy(s.sends[sid].phase)
    ensures s.sends[sid].phase.e.data.value == s.sends[sid].req.payload && sid !in s.matchOf
  {
    hide Inv;
    ReachableInv(s);
    SendAt(s, sid);
  }

  // ---------- What each step does to the phases ----------

  /** At most the send `sid` changed, and not its phase. */
  ghost predicate Kept(s: State, t: State, sid: nat) {
    && sid in s.sends && sid in t.sends && t.sends == s.sends[sid := t.sends[sid]]
    && t.sends[sid].phase == s.sends[sid].phase && t.sends[sid].req == s.sends[sid].req && t.matchOf == s.matchOf
  }

  lemma PutKept(s: State, sid: nat, h: Send)
    requires sid in s.sends && h.phase == s.sends[sid].phase && h.req == s.sends[sid].req
    ensures Kept(s, s.PutS(sid, h), sid)
  { }

  lemma FlagKept(s: State, t: State, sid: nat, b: bool)
    requires Kept(s, t, sid)
    ensures Kept(s, t.Flag(b), sid)
  { }

  lemma FinishKept(s: State, sid: nat, ret: Ret)
    requires sid in s.sends
    ensures Kept(s, FinishSh(s, sid, ret), sid)
  { }

  lemma LeaveKept(s: State, sid: nat)
    requires sid in s.sends
    ensures Kept(s, LeaveBuffered(s, sid), sid)
  { }

  lemma TailKept(s: State, sid: nat)
    requires sid in s.sends
    ensures Kept(s, RemoteWaitTail(s, sid), sid)
  {
    hide FinishSh, LeaveBuffered, Kept;
    var h := s.sends[sid];
    FinishKept(s, sid, SUCCESS);
    FinishKept(s, sid, ERR_NRDY);
    FlagKept(s, FinishSh(s, sid, ERR_NRDY), sid, h.req.mode != READY);
    LeaveKept(s, sid);
    PutKept(s, sid, h.(stat := if h.stat == PEND_STRT then PEND_WAIT else PEND_DWAT, owner := Waiting(false)));
  }

  lemma WaitKept(s: State, sid: nat)
    requires sid in s.sends
    ensures Kept(s, WaitSh(s, sid), sid)
  {
    hide FinishSh, LeaveBuffered, RemoteWaitTail, Kept;
    var h := s.sends[sid];
    TailKept(s, sid);
    FinishKept(s, sid, SUCCESS);
    FinishKept(s, sid, ERR_NRDY);
    LeaveKept(s, sid);
    PutKept(s, sid, h.(stat := PEND_WAIT, owner := Waiting(false)));
    PutKept(s, sid, h.(owner := FirstWait(false)));
    SameKept(s, sid);
    FlagKept(s, s, sid, true);
  }

  lemma SameKept(s: State, sid: nat)
    requires sid in s.sends
    ensures Kept(s, s, sid)
  { }

  lemma WakeKept(s: State, sid: nat)
    requires sid in s.sends
    ensures Kept(s, WakeSh(s, sid), sid)
  {
    hide FinishSh, LeaveBuffered, RemoteWaitTail, Kept;
    var h := s.sends[sid];
    TailKept(s, sid);
    FinishKept(s, sid, SUCCESS);
    FlagKept(s, FinishSh(s, sid, SUCCESS), sid, h.stat != MATCH);
    PutKept(s, sid, h.(owner := FirstWait(false)));
    PutKept(s, sid, h.(owner := Waiting(false)));
  }

  /** At most the send `sid` and its match changed; `copied` tells whether a copy may be there now. */
  ghost predicate Moved(s: State, t: State, sid: nat, copied: bool) {
    && sid in s.sends && sid in t.sends && t.sends == s.sends[sid := t.sends[sid]] && t.sends[sid].req == s.sends[sid].req
    && (HasCopy(t.sends[sid].phase) ==> copied)
    && forall a :: a != sid && a in s.matchOf ==> a in t.matchOf && t.matchOf[a] == s.matchOf[a]
  }

  lemma StartRemoteMoved(s: State, sid: nat)
    requires sid in s.sends
    ensures Moved(s, StartRemoteSh(s, sid), sid, false)
  { }

  lemma QueueLocalMoved(s: State, sid: nat)
    requires sid in s.sends
    ensures Moved(s, QueueLocal(s, sid), sid, false)
  { }

  lemma MatchLocalMoved(s: State, sid: nat, i: nat)
    requires sid in s.sends && i < |s.RQ(s.sends[sid].req.dest)|
    ensures Moved(s, MatchLocal(s, sid, i), sid, false)
  {
    hide MatchRecv, RemoveAt, CopyInto, Min;
  }

  lemma StartMoved(s: State, sid: nat)
    requires sid in s.sends
    ensures Moved(s, StartSh(s, sid), sid, false)
  {
    hide StartRemoteSh, QueueLocal, MatchLocal, Moved, RqCmp;
    var q := s.sends[sid].req;
    StartRemoteMoved(s, sid);
    QueueLocalMoved(s, sid);
    var i := FindRecv(s, s.RQ(q.dest), q.ctx, q.tag, q.src);
    if i < |s.RQ(q.dest)| { MatchLocalMoved(s, sid, i); }
  }

  /** A match writes neither request nor phase. */
  lemma SameRequest(h: Send)
    ensures DataSent(h).req == h.req
    ensures forall n, p :: MatchSend(h.(buflen := n, phase := p)).req == h.req && MatchSend(h.(buflen := n, phase := p)).phase == p
  { }

  lemma TakeLocalMoved(s: State, rid: nat, i: nat)
    requires rid in s.recvs && i < |s.SQ(s.recvs[rid].req.dest)| && s.SQ(s.recvs[rid].req.dest)[i].LocalE?
    requires s.SQ(s.recvs[rid].req.dest)[i].sid in s.sends
    ensures Moved(s, TakeSend(s, rid, i), s.SQ(s.recvs[rid].req.dest)[i].sid, false)
  {
    SameRequest(s.Snd(s.SQ(s.recvs[rid].req.dest)[i].sid));
    hide RemoveAt, CopyInto, Min, MatchSend;
  }

  lemma TakeRemoteMoved(s: State, rid: nat, i: nat)
    requires rid in s.recvs && i < |s.SQ(s.recvs[rid].req.dest)| && s.SQ(s.recvs[rid].req.dest)[i].RemoteE?
    requires s.SQ(s.recvs[rid].req.dest)[i].sid in s.sends
    ensures var e, t := s.SQ(s.recvs[rid].req.dest)[i], TakeSend(s, rid, i);
      && Moved(s, t, e.sid, false)
      && (e.data.Some? ==> e.sid in t.matchOf && t.matchOf[e.sid] == rid && rid in t.recvs && t.recvs[rid].phase == Received(e.sid))
  {
    hide RemoveAt, CopyInto, Min;
  }

  lemma RmsMatchMoved(s: State, sid: nat, hdr: Hdr, i: nat)
    requires sid in s.sends && i < |s.RQ(hdr.dest)|
    ensures Moved(s, RmsMatch(s, sid, hdr, i), sid, false)
  {
    hide RemoveAt, Min;
  }

  lemma RmdsMatchMoved(s: State, sid: nat, hdr: Hdr, payload: seq<Byte>, i: nat)
    requires sid in s.sends && i < |s.RQ(hdr.dest)|
    ensures Moved(s, RmdsMatch(s, sid, hdr, payload, i), sid, false)
  {
    hide RemoveAt, Min, CopyInto, MatchRecv;
  }

  lemma QueueMoved(s: State, sid: nat, hdr: Hdr, data: Option<seq<Byte>>, b: bool)
    requires sid in s.sends
    ensures Moved(s, QueueRemote(s, sid, hdr, data), sid, data.Some?)
    ensures Moved(s, QueueRemote(s, sid, hdr, data).Flag(b), sid, data.Some?)
  { }

  lemma RefuseMoved(s: State, sid: nat, hdr: Hdr, b: bool)
    requires sid in s.sends
    ensures Moved(s, Refuse(s, sid, hdr), sid, false) && Moved(s, Refuse(s, sid, hdr).Flag(b), sid, false)
  { }

  lemma RmsMoved(s: State, sid: nat, hdr: Hdr)
    requires sid in s.sends
    ensures Moved(s, RmsHandle(s, sid, hdr), sid, false)
  {
    hide RmsMatch, QueueRemote, Refuse, Moved, RqCmp;
    var i := FindRecv(s, s.RQ(hdr.dest), hdr.ctx, hdr.tag, hdr.src);
    if i < |s.RQ(hdr.dest)| { RmsMatchMoved(s, sid, hdr, i); }
    QueueMoved(s, sid, hdr, None, false);
    RefuseMoved(s, sid, hdr, false);
  }

  lemma RmdsMoved(s: State, sid: nat, hdr: Hdr, payload: seq<Byte>, alloc: bool)
    requires sid in s.sends
    ensures Moved(s, RmdsHandle(s, sid, hdr, payload, alloc), sid, alloc)
  {
    hide RmdsMatch, QueueRemote, Refuse, RqCmp, Prefix;
    var i := FindRecv(s, s.RQ(hdr.dest), hdr.ctx, hdr.tag, hdr.src);
    if i < |s.RQ(hdr.dest)| { RmdsMatchMoved(s, sid, hdr, payload, i); }
    QueueMoved(s, sid, hdr, if alloc then Some(Prefix(payload, hdr.buflen)) else None, hdr.buflen != |payload|);
    RefuseMoved(s, sid, hdr, hdr.buflen != |payload|);
  }

  lemma RdsMoved(s: State, sid: nat, rid: nat, buflen: nat, payload: seq<Byte>)
    requires sid in s.sends
    ensures Moved(s, RdsHandle(s, sid, rid, buflen, payload), sid, false)
  {
    hide WithData, Min;
  }

  lemma RmrMoved(s: State, sid: nat, rid: nat, buflen: nat)
    requires sid in s.sends
    ensures Moved(s, RmrHandle(s, sid, rid, buflen), sid, false)
  {
    SameRequest(s.sends[sid]);
    hide DataSent, Min, Prefix;
  }

  lemma AckedPhase(h: Send, buflen: nat)
    ensures LongDone(h, buflen).phase == Done && ShortDone(h, buflen).phase == Done
    ensures LongDone(h, buflen).req == h.req && ShortDone(h, buflen).req == h.req
  { }

  lemma RdrMoved(s: State, sid: nat, buflen: nat)
    requires sid in s.sends
    ensures Moved(s, RdrHandle(s, sid, buflen), sid, false)
  {
    AckedPhase(s.sends[sid], buflen);
    hide LongDone;
  }

  lemma RmdrMoved(s: State, sid: nat, buflen: nat)
    requires sid in s.sends
    ensures Moved(s, RmdrHandle(s, sid, buflen), sid, false)
  {
    AckedPhase(s.sends[sid], buflen);
    hide ShortDone;
  }

  lemma RndyMoved(s: State, sid: nat)
    requires sid in s.sends
    ensures Moved(s, RndyHandle(s, sid), sid, false)
  { }

  // ---------- Made once, given back once ----------

  /** What a step does to the copy of a send, and that it undoes no match and changes no request */
  ghost predicate CopyStep(s: State, st: Step, t: State, sid: nat) requires Enabled(s, st) && sid in s.sends {
    && sid in t.sends && t.sends[sid].req == s.sends[sid].req
    && (sid in s.matchOf ==> sid in t.matchOf && t.matchOf[sid] == s.matchOf[sid])
    && (HasCopy(t.sends[sid].phase) && !HasCopy(s.sends[sid].phase) ==>
          st.Arrive? && st.alloc && s.Link(st.a, st.b)[0].RMDS? && s.Link(st.a, st.b)[0].sid == sid)
    && (HasCopy(s.sends[sid].phase) && !HasCopy(t.sends[sid].phase) ==>
          st.RStart? && sid in t.matchOf && t.matchOf[sid] == st.rid && st.rid in t.recvs && t.recvs[st.rid].phase == Received(sid))
  }

  lemma StartRhCopies(s: State, rid: nat, sid: nat)
    requires Reachable(s) && Enabled(s, RStart(rid)) && sid in s.sends
    ensures CopyStep(s, RStart(rid), StartRh(s, rid), sid)
  {
    hide Inv, TakeSend, SqCmp;
    ReachableInv(s);
    var r := s.recvs[rid];
    var q := s.SQ(r.req.dest);
    var i := FindSend(s, q, r.req.ctx, r.tag, r.src);
    if i < |q| {
      CreatedRecv(s, rid);
      FirstSend(s, r.req, i);
      QueuedSend(s, q[i]);
      if q[i].LocalE? { TakeLocalMoved(s, rid, i); } else { TakeRemoteMoved(s, rid, i); }
      StartRhTakes(s, rid, i);
      hide StartRh;
    }
  }

  lemma StartRhTakes(s: State, rid: nat, i: nat)
    requires rid in s.recvs && i < |s.SQ(s.recvs[rid].req.dest)|
    requires i == FindSend(s, s.SQ(s.recvs[rid].req.dest), s.recvs[rid].req.ctx, s.recvs[rid].tag, s.recvs[rid].src)
    ensures StartRh(s, rid) == TakeSend(s, rid, i)
  {
    hide TakeSend, PostRecv, SqCmp;
  }

  /** A reply makes no match. */
  lemma RepliesMatchNothing(s: State, m: Msg, alloc: bool)
    requires !m.Request()
    ensures Handle(s, m, alloc).matchOf == s.matchOf
  {
    hide WithData, DataSent, LongDone, ShortDone, Min, Prefix, RmsHandle, RmdsHandle;
    if m.RDR? { AckMatches(s, LongDone(s.Snd(m.sid), m.buflen), m.sid); }
    if m.RMDR? { AckMatches(s, ShortDone(s.Snd(m.sid), m.buflen), m.sid); }
  }

  lemma AckMatches(s: State, h: Send, sid: nat)
    ensures s.PutS(sid, h).FreeSh(sid).matchOf == s.matchOf && forall b :: s.PutS(sid, h).Flag(b).matchOf == s.matchOf
  { }

  lemma HandleMoved(s: State, m: Msg, alloc: bool)
    requires m.sid in s.sends
    ensures Moved(s, Handle(s, m, alloc), m.sid, m.RMDS? && alloc)
  {
    hide Moved, RmsHandle, RmdsHandle, RdsHandle, RmrHandle, RdrHandle, RmdrHandle, RndyHandle;
    match m
    case RMS(sid, hdr) => RmsMoved(s, sid, hdr);
    case RMDS(sid, hdr, payload) => RmdsMoved(s, sid, hdr, payload, alloc);
    case RDS(sid, rid, n, payload) => RdsMoved(s, sid, rid, n, payload);
    case RMR(sid, rid, n) => RmrMoved(s, sid, rid, n);
    case RDR(sid, n) => RdrMoved(s, sid, n);
    case RMDR(sid, n) => RmdrMoved(s, sid, n);
    case RNDY(sid) => RndyMoved(s, sid);
  }

  /** The message at the head of a link is of a known send in flight; a request is of one that is not matched. */
  lemma HeadKnown(s: State, a: nat, b: nat)
    requires Reachable(s) && s.Link(a, b) != []
    ensures var m := s.Link(a, b)[0];
      m.sid in s.sends && s.sends[m.sid].phase == Flight(m) && (m.Request() ==> m.sid !in s.matchOf)
  {
    hide Inv;
    ReachableInv(s);
    var m := s.Link(a, b)[0];
    HeadAt(s, a, b);
    HeadParts(s, a, b, m);
    SendAt(s, m.sid);
    if m.Request() { RequestKnown(s, m); }
    hide SendOk, Head, PairOk;
  }

  lemma ArriveCopies(s: State, a: nat, b: nat, alloc: bool, sid: nat)
    requires Reachable(s) && s.Link(a, b) != [] && sid in s.sends
    ensures CopyStep(s, Arrive(a, b, alloc), Deliver(s, a, b, alloc), sid)
  {
    hide Reachable, Handle;
    var m := s.Link(a, b)[0];
    HeadKnown(s, a, b);
    HandleMoved(PopLink(s, a, b), m, alloc);
    if !m.Request() { RepliesMatchNothing(PopLink(s, a, b), m, alloc); }
  }

  /**
   * A copy appears only when a short message arrives that no receive waits
   * for, and goes only when a receive takes it; a match is never undone.
   */
  lemma CopyMadeAndFreed(s: State, st: Step, sid: nat)
    requires Reachable(s) && Enabled(s, st) && sid in s.sends
    ensures CopyStep(s, st, Apply(s, st), sid)
  {
    hide Inv, WaitSh, WakeSh, StartSh, StartRh, Deliver, WaitRh, WakeRh, IsRun;
    ReachableInv(s);
    match st
    case SInit(_, _, _, _, _, _, _, _) => InitSendCopies(s, st, sid); hide InitSh;
    case SStart(x) => FreshSend(s, x); StartMoved(s, x);
    case SWait(x) => WaitKept(s, x);
    case SWake(x) => WakeKept(s, x);
    case SScribble(x, bytes) => PutKept(s, x, s.sends[x].(user := bytes));
    case RInit(_, _) =>
    case RStart(rid) => StartRhCopies(s, rid, sid);
    case RWait(rid) => WaitRhCopies(s, st, sid);
    case RWake(rid) => WaitRhCopies(s, st, sid);
    case Arrive(a, b, alloc) => ArriveCopies(s, a, b, alloc, sid);
  }

  lemma InitSendCopies(s: State, st: Step, sid: nat)
    requires Enabled(s, st) && sid in s.sends && st.SInit?
    ensures CopyStep(s, st, Apply(s, st), sid)
  { }

  lemma WaitRhCopies(s: State, st: Step, sid: nat)
    requires Enabled(s, st) && sid in s.sends && (st.RWait? || st.RWake?)
    ensures CopyStep(s, st, Apply(s, st), sid)
  {
    WaitRhSends(s, st.rid);
    hide WaitRh, WakeRh;
  }

  lemma WaitRhSends(s: State, rid: nat)
    ensures WaitRh(s, rid).sends == s.sends && WaitRh(s, rid).matchOf == s.matchOf
    ensures WakeRh(s, rid).sends == s.sends && WakeRh(s, rid).matchOf == s.matchOf
  {
    FinishRhSends(s, rid);
    hide FinishRh;
  }

  lemma FinishRhSends(s: State, rid: nat)
    ensures FinishRh(s, rid).sends == s.sends && FinishRh(s, rid).matchOf == s.matchOf
  { }

  /** Once a send is matched it stays so, in the same way, and no copy of it is ever kept again. */
  lemma {:induction false} CopyOnce(run: seq<State>, i: nat, j: nat, sid: nat)
    requires IsRun(run) && i <= j < |run| && sid in run[i].matchOf
    ensures sid in run[j].matchOf && run[j].matchOf[sid] == run[i].matchOf[sid]
    ensures sid in run[j].sends && !HasCopy(run[j].sends[sid].phase)
    decreases j
  {
    hide Inv, Apply, Enabled;
    if i < j {
      CopyOnce(run, i, j - 1, sid);
      RunReaches(run, j - 1);
      assert Next(run[j - 1], run[j - 1 + 1]);
      var st: Step :| Enabled(run[j - 1], st) && Apply(run[j - 1], st) == run[j];
      CopyMadeAndFreed(run[j - 1], st, sid);
    }
    RunReaches(run, j);
    MatchedKnown(run[j], sid);
    if HasCopy(run[j].sends[sid].phase) { CopyHolds(run[j], sid); }
  }

  lemma RunReaches(run: seq<State>, i: nat)
    requires IsRun(run) && i < |run|
    ensures Reachable(run[i])
  {
    assert IsRun(run[..i + 1]) && run[..i + 1][|run[..i + 1]| - 1] == run[i];
  }

  lemma MatchedKnown(s: State, sid: nat)
    requires Reachable(s) && sid in s.matchOf
    ensures sid in s.sends
  {
    hide Inv;
    ReachableInv(s);
    PairOf(s, sid);
  }
}
