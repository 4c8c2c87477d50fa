/**
 * What each call and each arriving message comes to, in terms of the requests
 * of the callers and of who waits for whom.
 */
module PointToPointAnswers {
  import opened Basics
  import opened PointToPoint
  import opened PointToPointInv
  import opened PointToPointSteps
  import opened PointToPointMoves
  import opened PointToPointArrivals
  import opened PointToPointTheorems
  import opened PointToPointCopies

  // ---------- The arrival of a send ----------

  /** A posted receive takes the send. */
  ghost predicate SomeoneWaits(s: State, q: SendReq) {
    exists rid :: rid in s.recvs && s.recvs[rid].phase.Posted? && Accepts(s.recvs[rid].req, q)
  }

  /** Receive `rid` is the first posted of those that take the send. */
  ghost predicate WaitsFirst(s: State, q: SendReq, rid: nat) {
    && rid in s.recvs && s.recvs[rid].phase.Posted? && Accepts(s.recvs[rid].req, q)
    && forall r :: r in s.recvs && s.recvs[r].phase.Posted? && Accepts(s.recvs[r].req, q) ==> s.recvs[rid].no <= s.recvs[r].no
  }

  lemma RmsMatchPhase(s: State, sid: nat, hdr: Hdr, i: nat)
    requires sid in s.sends && i < |s.RQ(hdr.dest)|
    ensures var t := RmsMatch(s, sid, hdr, i);
      sid in t.sends && t.sends[sid].phase.Flight? && t.sends[sid].phase.m.RMR? && t.matchOf == s.matchOf[sid := s.RQ(hdr.dest)[i]]
  {
    hide RemoveAt, Min;
  }

  lemma RmdsMatchPhase(s: State, sid: nat, hdr: Hdr, payload: seq<Byte>, i: nat)
    requires sid in s.sends && i < |s.RQ(hdr.dest)|
    ensures var t := RmdsMatch(s, sid, hdr, payload, i);
      sid in t.sends && t.sends[sid].phase.Flight? && t.sends[sid].phase.m.RMDR? && t.matchOf == s.matchOf[sid := s.RQ(hdr.dest)[i]]
  {
    hide RemoveAt, Min, CopyInto, MatchRecv;
  }

  lemma QueuePhase(s: State, sid: nat, hdr: Hdr, data: Option<seq<Byte>>, b: bool)
    ensures var t := QueueRemote(s, sid, hdr, data);
      sid in t.sends && t.sends[sid].phase == Queued(RemoteE(sid, hdr, data)) && t.matchOf == s.matchOf
      && t.Flag(b).sends == t.sends && t.Flag(b).matchOf == t.matchOf
  { }

  lemma RefusePhase(s: State, sid: nat, hdr: Hdr, b: bool)
    ensures var t := Refuse(s, sid, hdr);
      sid in t.sends && t.sends[sid].phase == Flight(RNDY(sid)) && t.matchOf == s.matchOf
      && t.Flag(b).sends == t.sends && t.Flag(b).matchOf == t.matchOf
  { }

  /** How a request is answered when the search of the receive queue ends at `i` */
  ghost predicate Answer(s: State, t: State, m: Msg, q: SendReq, i: nat, alloc: bool) requires m.Request() {
    && m.sid in t.sends
    && var p, w := t.sends[m.sid].phase, s.RQ(q.dest);
    if i < |w| then
      t.matchOf == s.matchOf[m.sid := w[i]] && p.Flight? && (if m.RMS? then p.m.RMR? else p.m.RMDR?)
    else
      && t.matchOf == s.matchOf
      && p == if q.mode == READY then Flight(RNDY(m.sid))
              else Queued(RemoteE(m.sid, q.Header(), if m.RMDS? && alloc then Some(q.payload) else None))
  }

  lemma RmsAnswer(s: State, m: Msg, q: SendReq, alloc: bool)
    requires m.RMS? && m.hdr == q.Header() && m.sid in s.sends
    ensures Answer(s, RmsHandle(s, m.sid, m.hdr), m, q, FindRecv(s, s.RQ(q.dest), q.ctx, q.tag, q.src), alloc)
  {
    hide RmsMatch, QueueRemote, Refuse, RqCmp;
    var i := FindRecv(s, s.RQ(q.dest), q.ctx, q.tag, q.src);
    if i < |s.RQ(q.dest)| {
      RmsMatchPhase(s, m.sid, m.hdr, i);
    } else if q.mode == READY {
      RefusePhase(s, m.sid, m.hdr, false);
    } else {
      QueuePhase(s, m.sid, m.hdr, None, false);
    }
  }

  lemma RmdsAnswer(s: State, m: Msg, q: SendReq, alloc: bool)
    requires m.RMDS? && m.hdr == q.Header() && m.payload == q.payload && m.sid in s.sends
    ensures Answer(s, RmdsHandle(s, m.sid, m.hdr, m.payload, alloc), m, q, FindRecv(s, s.RQ(q.dest), q.ctx, q.tag, q.src), alloc)
  {
    hide RmdsMatch, QueueRemote, Refuse, RqCmp;
    var i := FindRecv(s, s.RQ(q.dest), q.ctx, q.tag, q.src);
    if i < |s.RQ(q.dest)| {
      RmdsMatchPhase(s, m.sid, m.hdr, m.payload, i);
    } else if q.mode == READY {
      RefusePhase(s, m.sid, m.hdr, m.hdr.buflen != |m.payload|);
    } else {
      assert Prefix(m.payload, m.hdr.buflen) == q.payload;
      QueuePhase(s, m.sid, m.hdr, if alloc then Some(q.payload) else None, m.hdr.buflen != |m.payload|);
    }
  }

  /** The search of the receive queue finds the first receive that waits for the send, if there is one. */
  lemma SearchFinds(s: State, q: SendReq, i: nat)
    requires Inv(s) && i == FindRecv(s, s.RQ(q.dest), q.ctx, q.tag, q.src)
    ensures i < |s.RQ(q.dest)| <==> SomeoneWaits(s, q)
    ensures i < |s.RQ(q.dest)| ==> WaitsFirst(s, q, s.RQ(q.dest)[i])
  {
    hide Inv, Accepts, RqCmp;
    if i < |s.RQ(q.dest)| { FirstReceive(s, q, i); } else { NoReceiveFor(s, q); }
  }

  lemma RequestAt(s: State, a: nat, b: nat)
    requires Reachable(s) && s.Link(a, b) != [] && s.Link(a, b)[0].Request()
    ensures var m := s.Link(a, b)[0];
      && m.sid in s.sends && m.sid !in s.matchOf && m.hdr == s.sends[m.sid].req.Header()
      && (m.RMDS? ==> m.payload == s.sends[m.sid].req.payload)
  {
    hide Inv;
    ReachableInv(s);
    var m := s.Link(a, b)[0];
    HeadAt(s, a, b);
    HeadParts(s, a, b, m);
    SendAt(s, m.sid);
    RequestKnown(s, m);
    hide SendOk, Head, PairOk;
  }

  /** The state `t` after the request `m` for the send `q` was answered */
  ghost predicate Answered(s: State, t: State, m: Msg, q: SendReq, alloc: bool) requires m.Request() {
    && m.sid in t.sends
    && var p := t.sends[m.sid].phase;
    && (m.sid in t.matchOf <==> SomeoneWaits(s, q))
    && (m.sid in t.matchOf ==> WaitsFirst(s, q, t.matchOf[m.sid]) && p.Flight? && (if m.RMS? then p.m.RMR? else p.m.RMDR?))
    && (p == Flight(RNDY(m.sid)) <==> q.mode == READY && !SomeoneWaits(s, q))
    && (p.Queued? <==> q.mode != READY && !SomeoneWaits(s, q))
    && (p.Queued? ==> p.e == RemoteE(m.sid, q.Header(), if m.RMDS? && alloc then Some(q.payload) else None))
  }

  lemma SearchDecides(s: State, t: State, m: Msg, q: SendReq, i: nat, alloc: bool)
    requires m.Request() && m.sid !in s.matchOf && Answer(s, t, m, q, i, alloc)
    requires i < |s.RQ(q.dest)| <==> SomeoneWaits(s, q)
    requires i < |s.RQ(q.dest)| ==> WaitsFirst(s, q, s.RQ(q.dest)[i])
    ensures Answered(s, t, m, q, alloc)
  {
    hide SomeoneWaits, WaitsFirst;
  }

  /**
   * A send that arrives from another machine meets a receive if and only if
   * one is posted that takes it, and then the first posted; if not, it is
   * refused if and only if it is a ready send, and queued otherwise, with its
   * data exactly if they came along and there was memory for them.
   */
  lemma RequestAnswered(s: State, a: nat, b: nat, alloc: bool)
    requires Reachable(s) && s.Link(a, b) != [] && s.Link(a, b)[0].Request()
    ensures s.Link(a, b)[0].sid in s.sends
    ensures Answered(s, Apply(s, Arrive(a, b, alloc)), s.Link(a, b)[0], s.sends[s.Link(a, b)[0].sid].req, alloc)
  {
    RequestAt(s, a, b);
    var m := s.Link(a, b)[0];
    var q := s.sends[m.sid].req;
    var i := FindRecv(s, s.RQ(q.dest), q.ctx, q.tag, q.src);
    SearchFinds(s, q, i) by { ReachableInv(s); }
    hide Reachable, Handle, FindRecv, SomeoneWaits, WaitsFirst, Answer, Answered;
    HeadAnswer(s, a, b, q, alloc);
    SearchDecides(s, Deliver(s, a, b, alloc), m, q, i, alloc);
  }

  lemma HeadAnswer(s: State, a: nat, b: nat, q: SendReq, alloc: bool)
    requires s.Link(a, b) != [] && s.Link(a, b)[0].Request() && s.Link(a, b)[0].sid in s.sends
    requires s.Link(a, b)[0].hdr == q.Header() && (s.Link(a, b)[0].RMDS? ==> s.Link(a, b)[0].payload == q.payload)
    ensures Answer(s, Deliver(s, a, b, alloc), s.Link(a, b)[0], q, FindRecv(s, s.RQ(q.dest), q.ctx, q.tag, q.src), alloc)
  {
    var m, u := s.Link(a, b)[0], PopLink(s, a, b);
    SameSearch(s, a, b, q.dest, s.RQ(q.dest), q.ctx, q.tag, q.src);
    hide RmsHandle, RmdsHandle, FindRecv;
    if m.RMS? { RmsAnswer(u, m, q, alloc); } else { RmdsAnswer(u, m, q, alloc); }
  }

  // ---------- The arrival of a reply ----------

  lemma RdsPhase(s: State, sid: nat, rid: nat, buflen: nat, payload: seq<Byte>)
    requires sid in s.sends && rid in s.recvs && (s.recvs[rid].stat == PEND_DATA || s.recvs[rid].stat == PEND_DWAT)
    ensures var t := RdsHandle(s, sid, rid, buflen, payload);
      && sid in t.sends && t.sends[sid].phase.Flight? && t.sends[sid].phase.m.RDR?
      && rid in t.recvs && t.recvs[rid].phase == Received(sid)
  {
    hide CopyInto, Min;
  }

  lemma RmrPhase(s: State, sid: nat, rid: nat, buflen: nat)
    ensures var t := RmrHandle(s, sid, rid, buflen);
      sid in t.sends && t.sends[sid].phase.Flight? && t.sends[sid].phase.m.RDS? && t.sends[sid].phase.m.rid == rid
  {
    hide DataSent, Min, Prefix;
  }

  lemma AckSends(s: State, sid: nat, h: Send, b: bool)
    ensures s.PutS(sid, h).FreeSh(sid).sends == s.sends[sid := h] && s.PutS(sid, h).Flag(b).sends == s.sends[sid := h]
  { }

  lemma RdrPhase(s: State, sid: nat, buflen: nat)
    ensures sid in RdrHandle(s, sid, buflen).sends && RdrHandle(s, sid, buflen).sends[sid].phase == Done
  {
    var h := s.Snd(sid);
    AckedPhase(h, buflen);
    AckSends(s, sid, LongDone(h, buflen), h.stat != PEND_DATA && h.stat != PEND_DWAT);
    hide LongDone;
  }

  lemma RmdrPhase(s: State, sid: nat, buflen: nat)
    ensures sid in RmdrHandle(s, sid, buflen).sends && RmdrHandle(s, sid, buflen).sends[sid].phase == Done
  {
    var h := s.Snd(sid);
    AckedPhase(h, buflen);
    AckSends(s, sid, ShortDone(h, buflen), h.stat != PEND_STRT && h.stat != PEND_WAIT);
    hide ShortDone;
  }

  lemma RndyPhase(s: State, sid: nat)
    ensures sid in RndyHandle(s, sid).sends && RndyHandle(s, sid).sends[sid].phase == Refused
  { }

  /** A reply brings its send on. */
  ghost predicate Advanced(t: State, m: Msg) {
    && m.sid in t.sends
    && var p := t.sends[m.sid].phase;
    match m
    case RMR(_, rid, _) => p.Flight? && p.m.RDS? && p.m.rid == rid
    case RDS(sid, rid, _, _) => p.Flight? && p.m.RDR? && rid in t.recvs && t.recvs[rid].phase == Received(sid)
    case RDR(_, _) => p == Done
    case RMDR(_, _) => p == Done
    case RNDY(_) => p == Refused
    case _ => false
  }

  lemma HandleAdvances(s: State, m: Msg, alloc: bool)
    requires m.sid in s.sends && !m.Request()
    requires m.RDS? ==> m.rid in s.recvs && (s.recvs[m.rid].stat == PEND_DATA || s.recvs[m.rid].stat == PEND_DWAT)
    ensures Advanced(Handle(s, m, alloc), m)
  {
    hide RdsHandle, RmrHandle, RdrHandle, RmdrHandle, RndyHandle;
    match m
    case RMR(sid, rid, n) => RmrPhase(s, sid, rid, n);
    case RDS(sid, rid, n, payload) => RdsPhase(s, sid, rid, n, payload);
    case RDR(sid, n) => RdrPhase(s, sid, n);
    case RMDR(sid, n) => RmdrPhase(s, sid, n);
    case RNDY(sid) => RndyPhase(s, sid);
  }

  /**
   * Every reply brings its send on: the receiver's answer makes the data
   * leave, the data fill the receive and are acknowledged, an acknowledgement
   * ends the send, and so does a refusal.
   */
  lemma ReplyAdvances(s: State, a: nat, b: nat, alloc: bool)
    requires Reachable(s) && s.Link(a, b) != [] && !s.Link(a, b)[0].Request()
    ensures Advanced(Apply(s, Arrive(a, b, alloc)), s.Link(a, b)[0])
  {
    var m := s.Link(a, b)[0];
    HeadKnown(s, a, b);
    if m.RDS? { AwaitsData(s, m); }
    hide Reachable, Handle, Advanced;
    HandleAdvances(PopLink(s, a, b), m, alloc);
  }

  lemma AwaitsData(s: State, m: Msg)
    requires Reachable(s) && m.sid in s.sends && m.RDS? && s.sends[m.sid].phase == Flight(m)
    ensures m.rid in s.recvs && (s.recvs[m.rid].stat == PEND_DATA || s.recvs[m.rid].stat == PEND_DWAT)
  {
    hide Inv;
    ReachableInv(s);
    RdsKnown(s, m);
    hide PairOk, SendOk, RecvOk;
  }

  // ---------- The starts ----------

  lemma StartRemotePhase(s: State, sid: nat)
    requires sid in s.sends && s.sends[sid].CurData() == s.sends[sid].req.payload && s.sends[sid].buflen == |s.sends[sid].req.payload|
    ensures var t, q := StartRemoteSh(s, sid), s.sends[sid].req;
      && sid in t.sends && t.matchOf == s.matchOf && t.sends[sid].no == s.clock && t.clock == s.clock + 1
      && t.sends[sid].phase == Flight(if |q.payload| < 3000 * 1024 then RMDS(sid, q.Header(), q.payload) else RMS(sid, q.Header()))
  {
    assert Prefix(s.sends[sid].CurData(), s.sends[sid].buflen) == s.sends[sid].req.payload;
  }

  lemma MatchLocalPhase(s: State, sid: nat, i: nat)
    requires sid in s.sends && i < |s.RQ(s.sends[sid].req.dest)|
    ensures var t, rid := MatchLocal(s, sid, i), s.RQ(s.sends[sid].req.dest)[i];
      && sid in t.sends && t.sends[sid].phase == Done && t.sends[sid].no == s.clock && t.clock == s.clock + 1
      && t.matchOf == s.matchOf[sid := rid]
  {
    hide RemoveAt, CopyInto, Min, MatchRecv;
  }

  lemma QueueLocalPhase(s: State, sid: nat)
    requires sid in s.sends
    ensures var t := QueueLocal(s, sid);
      && sid in t.sends && t.sends[sid].phase == Queued(LocalE(sid)) && t.sends[sid].no == s.clock && t.clock == s.clock + 1
      && t.matchOf == s.matchOf
  { }

  /** A handle that is not started is as it was initialised. */
  lemma FreshBytes(s: State, sid: nat)
    requires Reachable(s) && sid in s.sends && s.sends[sid].stat == CREATE
    ensures s.sends[sid].phase.Fresh? && sid !in s.matchOf
    ensures s.sends[sid].CurData() == s.sends[sid].req.payload && s.sends[sid].buflen == |s.sends[sid].req.payload|
  {
    hide Inv;
    ReachableInv(s);
    SendAt(s, sid);
  }

  /**
   * A send that starts is the last one started.  To another machine it leaves
   * with its data exactly if they are less than 3000 KB.  On its own machine it
   * is delivered at once if and only if a posted receive takes it, the first
   * posted, and waits in the queue otherwise.
   */
  lemma SendStarts(s: State, sid: nat)
    requires Reachable(s) && Enabled(s, SStart(sid))
    ensures var t, q := Apply(s, SStart(sid)), s.sends[sid].req;
      && sid in t.sends && t.sends[sid].no == s.clock && t.clock == s.clock + 1
      && var p := t.sends[sid].phase;
      if q.Remote() then
        sid !in t.matchOf && p == Flight(if |q.payload| < 3000 * 1024 then RMDS(sid, q.Header(), q.payload) else RMS(sid, q.Header()))
      else if SomeoneWaits(s, q) then
        sid in t.matchOf && WaitsFirst(s, q, t.matchOf[sid]) && p == Done
      else
        sid !in t.matchOf && p == Queued(LocalE(sid))
  {
    FreshBytes(s, sid);
    var q := s.sends[sid].req;
    var i := FindRecv(s, s.RQ(q.dest), q.ctx, q.tag, q.src);
    SearchFinds(s, q, i) by { ReachableInv(s); }
    hide Reachable, StartRemoteSh, MatchLocal, QueueLocal, FindRecv, SomeoneWaits, WaitsFirst, ReceivePosted;
    if q.Remote() { StartRemotePhase(s, sid); }
    else if i < |s.RQ(q.dest)| { MatchLocalPhase(s, sid, i); }
    else { QueueLocalPhase(s, sid); }
  }

  /** A queued send is taken by the receive. */
  ghost predicate SomethingQueued(s: State, r: RecvReq) {
    exists a :: a in s.sends && s.sends[a].phase.Queued? && Accepts(r, s.sends[a].req)
  }

  /** Send `sid` is queued, and the receive takes no earlier one of its source. */
  ghost predicate QueuedFirst(s: State, r: RecvReq, sid: nat) {
    && sid in s.sends && s.sends[sid].phase.Queued? && Accepts(r, s.sends[sid].req)
    && forall a :: a in s.sends && s.sends[a].phase.Queued? && Accepts(r, s.sends[a].req) && s.sends[a].req.src == s.sends[sid].req.src
         ==> s.sends[sid].no <= s.sends[a].no
  }

  lemma QueueSearchFinds(s: State, r: RecvReq, i: nat)
    requires Inv(s) && i == FindSend(s, s.SQ(r.dest), r.ctx, r.tag, r.src)
    ensures i < |s.SQ(r.dest)| <==> SomethingQueued(s, r)
    ensures i < |s.SQ(r.dest)| ==> QueuedFirst(s, r, s.SQ(r.dest)[i].sid)
    ensures i < |s.SQ(r.dest)| ==> s.sends[s.SQ(r.dest)[i].sid].phase == Queued(s.SQ(r.dest)[i])
  {
    hide Inv, Accepts, SqCmp;
    if i < |s.SQ(r.dest)| {
      FirstSend(s, r, i);
      assert Accepts(r, s.sends[s.SQ(r.dest)[i].sid].req);
    } else {
      NoSendFor(s, r);
    }
  }

  lemma PostPhase(s: State, rid: nat)
    requires rid in s.recvs
    ensures var t := PostRecv(s, rid);
      rid in t.recvs && t.recvs[rid].phase == Posted && t.recvs[rid].no == s.clock && t.clock == s.clock + 1
      && t.matchOf == s.matchOf && t.sends == s.sends
  { }

  lemma TakeLocalPhase(s: State, rid: nat, i: nat)
    requires rid in s.recvs && i < |s.SQ(s.recvs[rid].req.dest)| && s.SQ(s.recvs[rid].req.dest)[i].LocalE?
    ensures var t, sid := TakeSend(s, rid, i), s.SQ(s.recvs[rid].req.dest)[i].sid;
      && rid in t.recvs && t.recvs[rid].phase == Received(sid) && t.recvs[rid].no == s.clock && t.clock == s.clock + 1
      && t.matchOf == s.matchOf[sid := rid]
  {
    hide RemoveAt, CopyInto, Min, MatchSend;
  }

  lemma TakeRemotePhase(s: State, rid: nat, i: nat)
    requires rid in s.recvs && i < |s.SQ(s.recvs[rid].req.dest)| && s.SQ(s.recvs[rid].req.dest)[i].RemoteE?
    ensures var t, e := TakeSend(s, rid, i), s.SQ(s.recvs[rid].req.dest)[i];
      && rid in t.recvs && t.recvs[rid].phase == (if e.data.Some? then Received(e.sid) else Awaiting(e.sid))
      && t.recvs[rid].no == s.clock && t.clock == s.clock + 1 && t.matchOf == s.matchOf[e.sid := rid]
  {
    hide RemoveAt, CopyInto, Min;
  }

  /** The receive has the message of the send `sid` at once: the send is of its machine, or its data are here already. */
  predicate AtHand(s: State, sid: nat) requires sid in s.sends && s.sends[sid].phase.Queued? {
    s.sends[sid].phase.e.LocalE? || s.sends[sid].phase.e.data.Some?
  }

  /**
   * A receive that starts is the last one started.  It takes a queued send if
   * and only if there is one for it, the first of its source, and has the
   * message at once exactly if the data are at hand; otherwise it is posted.
   */
  lemma RecvStarts(s: State, rid: nat)
    requires Reachable(s) && Enabled(s, RStart(rid))
    ensures var t, r := Apply(s, RStart(rid)), s.recvs[rid].req;
      && rid in t.recvs && t.recvs[rid].no == s.clock && t.clock == s.clock + 1
      && var p := t.recvs[rid].phase;
      if SomethingQueued(s, r) then
        && (p.Received? || p.Awaiting?) && QueuedFirst(s, r, p.sid) && p.sid in t.matchOf && t.matchOf[p.sid] == rid
        && (p.Received? <==> AtHand(s, p.sid))
      else
        p == Posted && t.matchOf == s.matchOf
  {
    CreatedRecv(s, rid) by { ReachableInv(s); }
    var r := s.recvs[rid].req;
    var i := FindSend(s, s.SQ(r.dest), r.ctx, r.tag, r.src);
    QueueSearchFinds(s, r, i) by { ReachableInv(s); }
    hide Reachable, TakeSend, PostRecv, FindSend, SomethingQueued;
    if i < |s.SQ(r.dest)| {
      if s.SQ(r.dest)[i].LocalE? { TakeLocalPhase(s, rid, i); } else { TakeRemotePhase(s, rid, i); }
    } else {
      PostPhase(s, rid);
    }
    hide QueuedFirst;
  }

  // ---------- The wait calls ----------

  /** The wait call of a send need not wait: the send has met its end, or its data are saved. */
  predicate NeedNotWait(h: Send) {
    h.phase == Done || h.phase == Refused || h.req.mode == BUFFERED || (h.req.mode == STANDARD && h.req.hasSys)
  }

  /** What a wait call on an ended or saved send returns */
  function WaitCode(h: Send): Ret {
    if h.phase == Refused then ERR_NRDY
    else if h.phase != Done && h.req.payload == [] then ERR_REQUEST
    else SUCCESS
  }

  lemma FinishOwner(s: State, sid: nat, ret: Ret, b: bool)
    requires sid in s.sends
    ensures sid in FinishSh(s, sid, ret).sends && FinishSh(s, sid, ret).sends[sid].owner == Returned(ret)
    ensures FinishSh(s, sid, ret).Flag(b).sends == FinishSh(s, sid, ret).sends
  { }

  /** What the phase says of the state code where a wait call looks at it */
  lemma WaitLooks(s: State, sid: nat)
    requires Placed(s, sid) && !s.sends[sid].owner.Returned? && s.sends[sid].stat != CREATE
    ensures var h := s.sends[sid];
      && !h.inSys && h.stat.Waitable()
      && (h.stat == MATCH <==> h.phase == Done) && (h.stat == PEND_NRDY <==> h.phase == Refused)
      && (h.phase == Refused ==> h.req.mode == READY && h.req.Remote())
      && (h.req.hasSys ==> h.req.payload != []) && (h.req.mode == BUFFERED && h.req.payload != [] ==> h.req.hasSys)
      && (h.owner.Waiting? ==> h.phase != Refused && h.stat != PEND_STRT && (h.stat == PEND_WAIT || h.phase == Done || h.stat == PEND_DWAT))
      && (!h.owner.Waiting? ==> h.stat == PEND_STRT || h.stat == PEND_DATA || h.stat == MATCH || h.stat == PEND_NRDY)
  { }

  /** A local ready send is delivered when it starts, so it has met its receive when it is waited for. */
  lemma LocalReadyMet(s: State, sid: nat)
    requires Placed(s, sid) && s.sends[sid].req.mode == READY && !s.sends[sid].req.Remote() && !s.sends[sid].phase.Fresh?
    ensures s.sends[sid].phase == Done
  { }

  lemma TailOwner(s: State, sid: nat)
    requires Placed(s, sid) && s.sends[sid].req.Remote() && s.sends[sid].stat != CREATE
    requires s.sends[sid].owner == Running || s.sends[sid].owner.FirstWait?
    requires s.sends[sid].req.mode == READY ==> s.sends[sid].stat != PEND_STRT
    ensures var h, t := s.sends[sid], RemoteWaitTail(s, sid);
      sid in t.sends && t.sends[sid].owner == if NeedNotWait(h) then Returned(WaitCode(h)) else Waiting(false)
  {
    WaitLooks(s, sid);
    FinishOwner(s, sid, SUCCESS, false);
    FinishOwner(s, sid, ERR_NRDY, s.sends[sid].req.mode != READY);
    LeavesWith(s, sid);
    hide FinishSh, LeaveBuffered, Placed;
  }

  lemma LocalOwner(s: State, sid: nat)
    requires Placed(s, sid) && Enabled(s, SWait(sid)) && !s.sends[sid].req.Remote()
    ensures var h, t := s.sends[sid], LocalWait(s, sid);
      sid in t.sends && t.sends[sid].owner == if NeedNotWait(h) then Returned(WaitCode(h)) else Waiting(false)
  {
    WaitLooks(s, sid);
    if s.sends[sid].req.mode == READY { LocalReadyMet(s, sid); }
    FinishOwner(s, sid, SUCCESS, false);
    LeavesWith(s, sid);
    hide FinishSh, LeaveBuffered, Placed;
  }

  lemma WaitOwner(s: State, sid: nat)
    requires Placed(s, sid) && Enabled(s, SWait(sid))
    ensures var h, t := s.sends[sid], WaitSh(s, sid);
      sid in t.sends && if NeedNotWait(h) then t.sends[sid].owner == Returned(WaitCode(h)) else t.sends[sid].owner in {FirstWait(false), Waiting(false)}
  {
    WaitLooks(s, sid);
    var h := s.sends[sid];
    if !h.req.Remote() {
      LocalOwner(s, sid);
    } else if h.stat != PEND_STRT || h.req.mode != READY {
      TailOwner(s, sid);
    }
    hide LocalWait, RemoteWaitTail, Placed, WaitCode;
  }

  /**
   * The wait call of a send returns at once if and only if it need not wait,
   * and then with an error exactly for a refused send, or a buffered one that
   * is empty and not delivered; otherwise it blocks.
   */
  lemma SendWaits(s: State, sid: nat)
    requires Reachable(s) && Enabled(s, SWait(sid))
    ensures var h, t := s.sends[sid], Apply(s, SWait(sid));
      sid in t.sends && if NeedNotWait(h) then t.sends[sid].owner == Returned(WaitCode(h)) else t.sends[sid].owner in {FirstWait(false), Waiting(false)}
  {
    PlacedAt(s, sid) by { ReachableInv(s); }
    WaitOwner(s, sid);
    hide Reachable, WaitSh, Placed;
  }

  /** A sender that wakes returns if and only if its send has met its end, and blocks again otherwise. */
  lemma SendWakes(s: State, sid: nat)
    requires Reachable(s) && Enabled(s, SWake(sid))
    ensures var h, t := s.sends[sid], Apply(s, SWake(sid));
      sid in t.sends
      && if h.phase == Done || h.phase == Refused then t.sends[sid].owner == Returned(if h.phase == Refused then ERR_NRDY else SUCCESS)
         else t.sends[sid].owner in {FirstWait(false), Waiting(false)}
  {
    PlacedAt(s, sid) by { ReachableInv(s); }
    WakeOwner(s, sid);
    hide Reachable, WakeSh, Placed;
  }

  /** Who blocks has nothing saved that would let it leave. */
  lemma BlockedStays(s: State, sid: nat)
    requires Placed(s, sid) && (s.sends[sid].owner.FirstWait? || s.sends[sid].owner.Waiting?)
    ensures s.sends[sid].stat != CREATE && !s.sends[sid].req.MayLeave()
    ensures s.sends[sid].owner.FirstWait? ==> s.sends[sid].req.Remote() && s.sends[sid].req.mode == READY
  { }

  lemma WakeOwner(s: State, sid: nat)
    requires Placed(s, sid) && Enabled(s, SWake(sid))
    ensures var h, t := s.sends[sid], WakeSh(s, sid);
      sid in t.sends
      && if h.phase == Done || h.phase == Refused then t.sends[sid].owner == Returned(if h.phase == Refused then ERR_NRDY else SUCCESS)
         else t.sends[sid].owner in {FirstWait(false), Waiting(false)}
  {
    BlockedStays(s, sid);
    WaitLooks(s, sid);
    FinishOwner(s, sid, SUCCESS, s.sends[sid].stat != MATCH);
    if s.sends[sid].owner.FirstWait? && s.sends[sid].stat != PEND_STRT { TailOwner(s, sid); }
    hide FinishSh, LeaveBuffered, RemoteWaitTail, Placed;
  }

  /** The wait call of a receive returns, with success, if and only if the message is there. */
  lemma RecvWaits(s: State, rid: nat)
    requires Reachable(s) && rid in s.recvs && (Enabled(s, RWait(rid)) || Enabled(s, RWake(rid)))
    ensures var r := s.recvs[rid];
      && (Enabled(s, RWait(rid)) ==>
            var t := Apply(s, RWait(rid));
            rid in t.recvs && t.recvs[rid].owner == if r.phase.Received? then Returned(SUCCESS) else Waiting(false))
      && (Enabled(s, RWake(rid)) ==>
            var t := Apply(s, RWake(rid));
            rid in t.recvs && t.recvs[rid].owner == if r.phase.Received? then Returned(SUCCESS) else Waiting(false))
  {
    RecvLooks(s, rid);
    FinishRhOwner(s, rid);
    hide Reachable, FinishRh;
  }

  lemma RecvLooks(s: State, rid: nat)
    requires Reachable(s) && rid in s.recvs && (s.recvs[rid].owner.Waiting? || (s.recvs[rid].owner == Running && s.recvs[rid].stat != CREATE))
    ensures s.recvs[rid].stat == MATCH <==> s.recvs[rid].phase.Received?
    ensures s.recvs[rid].stat.Waitable()
  {
    hide Inv;
    ReachableInv(s);
    RecvAt(s, rid);
  }

  lemma FinishRhOwner(s: State, rid: nat)
    requires rid in s.recvs
    ensures rid in FinishRh(s, rid).recvs && FinishRh(s, rid).recvs[rid].owner == Returned(SUCCESS)
  { }

  // ---------- The handles that the calls make ----------

  /** A buffered message that is not empty finds no room. */
  predicate NoRoom(mode: Mode, buf: seq<Byte>, alloc: bool) { mode == BUFFERED && |buf| > 0 && !alloc }

  /** Handle `h` is a new one for a send with these arguments. */
  predicate MadeFor(h: Send, src: Rank, dest: Rank, tag: int, ctx: nat, mode: Mode, buf: seq<Byte>, alloc: bool) {
    && h.req.src == src && h.req.dest == dest && h.req.tag == tag && h.req.ctx == ctx && h.req.mode == mode && h.req.payload == buf
    && h.user == buf && h.buflen == |buf| && h.phase.Fresh? && h.owner == Running
    && (h.req.hasSys <==> (mode == STANDARD || mode == BUFFERED) && |buf| > 0 && alloc)
  }

  /**
   * The initialisation of a send makes one handle, for exactly what the caller
   * asked, with a system buffer exactly if the mode wants one, there is
   * something to buffer and there is room; without room for a buffered message
   * it makes nothing.
   */
  lemma InitSends(s: State, st: Step)
    requires st.SInit? && Enabled(s, st)
    ensures var t := Apply(s, st);
      if NoRoom(st.mode, st.buf, st.alloc) then t == s
      else
        && st.sid in t.sends && MadeFor(t.sends[st.sid], st.src, st.dest, st.tag, st.ctx, st.mode, st.buf, st.alloc)
        && t == s.(sends := s.sends[st.sid := t.sends[st.sid]],
                   sysLive := s.sysLive + (if t.sends[st.sid].req.hasSys then {st.sid} else {}))
  { }

  /**
   * When a send may start, and when a call may wait: a ready send of the same
   * machine needs a posted receive that takes it, any other send nothing.
   */
  lemma StartsIff(s: State, sid: nat)
    requires Reachable(s) && sid in s.sends
    ensures var h := s.sends[sid];
      && (Enabled(s, SStart(sid)) <==> h.phase.Fresh? && (h.req.mode == READY && !h.req.Remote() ==> SomeoneWaits(s, h.req)))
      && (Enabled(s, SWait(sid)) <==> !h.phase.Fresh? && h.owner == Running)
  {
    hide Inv;
    ReachableInv(s);
    SendAt(s, sid);
    var q := s.sends[sid].req;
    SearchFinds(s, q, FindRecv(s, s.RQ(q.dest), q.ctx, q.tag, q.src));
    hide Reachable, SomeoneWaits, FindRecv, Accepts, State.Link, EntryOk;
  }

  /** Once its wait has returned, the sender writes what it likes into its buffer, and only there. */
  lemma BufferReused(s: State, sid: nat, bytes: seq<Byte>)
    requires sid in s.sends && s.sends[sid].owner.Returned? && |bytes| == |s.sends[sid].req.payload|
    ensures Enabled(s, SScribble(sid, bytes))
    ensures Apply(s, SScribble(sid, bytes)) == s.(sends := s.sends[sid := s.sends[sid].(user := bytes)])
  { }

  /** Handle `r` is a new one for a receive with these arguments. */
  predicate MadeForReceive(r: Recv, req: RecvReq) {
    && r.req == req && r.src == req.src && r.tag == req.tag && r.data == req.buffer && r.buflen == |req.buffer|
    && r.phase.Created? && r.owner == Running
  }

  /** The initialisation of a receive makes one handle, for exactly what the caller asked. */
  lemma InitReceives(s: State, st: Step)
    requires st.RInit? && Enabled(s, st)
    ensures var t := Apply(s, st);
      && st.rid in t.recvs && t == s.(recvs := s.recvs[st.rid := t.recvs[st.rid]])
      && MadeForReceive(t.recvs[st.rid], st.rreq)
  { }

  // ---------- Requests stay as they were made ----------

  /** Receive handles keep their requests. */
  ghost predicate ReceivesKept(s: State, t: State) {
    forall b :: b in s.recvs ==> b in t.recvs && t.recvs[b].req == s.recvs[b].req
  }

  lemma PutReceive(s: State, t: State, rid: nat, r: Recv)
    requires t.recvs == s.recvs[rid := r] && r.req == s.Rcv(rid).req
    ensures ReceivesKept(s, t)
  { }

  lemma MatchRecvRequest(r: Recv)
    ensures MatchRecv(r).req == r.req
  { }

  lemma MatchLocalKeeps(s: State, sid: nat, i: nat)
    requires i < |s.RQ(s.Snd(sid).req.dest)|
    ensures ReceivesKept(s, MatchLocal(s, sid, i))
  {
    var h := s.Snd(sid);
    var rid := s.RQ(h.req.dest)[i];
    var r := s.Rcv(rid);
    var n := Min(h.buflen, r.buflen);
    var r' := r.(src := Is(h.req.src), tag := Is(h.req.tag), buflen := n, data := CopyInto(r.data, h.CurData(), n), phase := Received(sid));
    MatchRecvRequest(r');
    hide MatchRecv, RemoveAt, CopyInto, Min;
    PutReceive(s, MatchLocal(s, sid, i), rid, MatchRecv(r'));
  }

  lemma FreedRecvs(t: State, sid: nat, b: bool)
    ensures t.FreeSh(sid).recvs == t.recvs && t.Flag(b).recvs == t.recvs
  { }

  lemma TakeLocalKeeps(s: State, rid: nat, sid: nat)
    requires rid in s.recvs
    ensures ReceivesKept(s, TakeLocal(s, rid, sid))
  {
    var r, h := s.recvs[rid], s.Snd(sid);
    var n := Min(h.buflen, r.buflen);
    var r' := r.(src := Is(h.req.src), tag := Is(h.req.tag), buflen := n, stat := MATCH, no := s.clock,
                 data := CopyInto(r.data, h.CurData(), n), phase := Received(sid));
    var t := s.PutR(rid, r').PutS(sid, MatchSend(h.(buflen := n, phase := Done)));
    FreedRecvs(t, sid, h.stat != PEND_WAIT && h.stat != PEND_STRT);
    PutReceive(s, TakeLocal(s, rid, sid), rid, r') by {
      hide MatchSend, CopyInto, Min, State.FreeSh, State.Flag, ReceivesKept;
      assert t.recvs == s.recvs[rid := r'];
    }
    hide *;
  }

  lemma TakeRemoteKeeps(s: State, rid: nat, e: SEntry)
    requires rid in s.recvs && e.RemoteE?
    ensures ReceivesKept(s, TakeRemote(s, rid, e))
  {
    hide CopyInto, Min;
    var t := TakeRemote(s, rid, e);
    PutReceive(s, t, rid, t.recvs[rid]);
  }

  lemma TakeKeepsReceives(s: State, rid: nat, i: nat)
    requires rid in s.recvs && i < |s.SQ(s.recvs[rid].req.dest)|
    ensures ReceivesKept(s, TakeSend(s, rid, i))
  {
    var e := s.SQ(s.recvs[rid].req.dest)[i];
    if e.LocalE? { TakeLocalKeeps(s, rid, e.sid); } else { TakeRemoteKeeps(s, rid, e); }
    hide TakeLocal, TakeRemote, RemoveAt;
  }

  lemma RmsMatchKeeps(s: State, sid: nat, hdr: Hdr, i: nat)
    requires i < |s.RQ(hdr.dest)|
    ensures ReceivesKept(s, RmsMatch(s, sid, hdr, i))
  {
    hide RemoveAt, Min;
    var t, rid := RmsMatch(s, sid, hdr, i), s.RQ(hdr.dest)[i];
    PutReceive(s, t, rid, t.recvs[rid]);
  }

  lemma RmdsMatchKeeps(s: State, sid: nat, hdr: Hdr, payload: seq<Byte>, i: nat)
    requires i < |s.RQ(hdr.dest)|
    ensures ReceivesKept(s, RmdsMatch(s, sid, hdr, payload, i))
  {
    var rid := s.RQ(hdr.dest)[i];
    var r := s.Rcv(rid);
    var n := Min(r.buflen, hdr.buflen);
    MatchRecvRequest(r.(tag := Is(hdr.tag), src := Is(hdr.src), buflen := n, data := CopyInto(r.data, payload, n), phase := Received(sid)));
    hide MatchRecv, RemoveAt, CopyInto, Min;
    var t := RmdsMatch(s, sid, hdr, payload, i);
    PutReceive(s, t, rid, t.recvs[rid]);
  }

  lemma RdsKeepsReceives(s: State, sid: nat, rid: nat, buflen: nat, payload: seq<Byte>)
    ensures ReceivesKept(s, RdsHandle(s, sid, rid, buflen, payload))
  {
    hide CopyInto, Min;
    var t := RdsHandle(s, sid, rid, buflen, payload);
    PutReceive(s, t, rid, t.recvs[rid]);
  }

  lemma RmsKeepsReceives(s: State, sid: nat, hdr: Hdr)
    ensures ReceivesKept(s, RmsHandle(s, sid, hdr))
  {
    var i := FindRecv(s, s.RQ(hdr.dest), hdr.ctx, hdr.tag, hdr.src);
    if i < |s.RQ(hdr.dest)| { RmsMatchKeeps(s, sid, hdr, i); }
    hide RmsMatch, RqCmp;
  }

  lemma RmdsKeepsReceives(s: State, sid: nat, hdr: Hdr, payload: seq<Byte>, alloc: bool)
    ensures ReceivesKept(s, RmdsHandle(s, sid, hdr, payload, alloc))
  {
    var i := FindRecv(s, s.RQ(hdr.dest), hdr.ctx, hdr.tag, hdr.src);
    if i < |s.RQ(hdr.dest)| { RmdsMatchKeeps(s, sid, hdr, payload, i); }
    hide RmdsMatch, RqCmp, Prefix;
  }

  lemma HandleKeepsReceives(s: State, m: Msg, alloc: bool)
    ensures ReceivesKept(s, Handle(s, m, alloc))
  {
    hide RmsHandle, RmdsHandle, RdsHandle, DataSent, LongDone, ShortDone, Min, Prefix;
    match m
    case RMS(sid, hdr) => RmsKeepsReceives(s, sid, hdr);
    case RMDS(sid, hdr, payload) => RmdsKeepsReceives(s, sid, hdr, payload, alloc);
    case RDS(sid, rid, n, payload) => RdsKeepsReceives(s, sid, rid, n, payload);
    case RMR(_, _, _) =>
    case RDR(_, _) =>
    case RMDR(_, _) =>
    case RNDY(_) =>
  }

  lemma StartKeepsReceives(s: State, sid: nat)
    ensures ReceivesKept(s, StartSh(s, sid))
  {
    hide MatchLocal, RqCmp;
    var q := s.Snd(sid).req;
    var i := FindRecv(s, s.RQ(q.dest), q.ctx, q.tag, q.src);
    if i < |s.RQ(q.dest)| { MatchLocalKeeps(s, sid, i); }
  }

  lemma StartRhKeepsReceives(s: State, rid: nat)
    requires rid in s.recvs
    ensures ReceivesKept(s, StartRh(s, rid))
  {
    hide TakeSend, SqCmp;
    var r := s.recvs[rid];
    var i := FindSend(s, s.SQ(r.req.dest), r.req.ctx, r.tag, r.src);
    if i < |s.SQ(r.req.dest)| { TakeKeepsReceives(s, rid, i); }
  }

  lemma FinishRhKeepsReceives(s: State, rid: nat)
    requires rid in s.recvs
    ensures ReceivesKept(s, FinishRh(s, rid))
  {
    var t := FinishRh(s, rid);
    PutReceive(s, t, rid, t.recvs[rid]);
  }

  lemma WaitRhKeepsReceives(s: State, rid: nat)
    requires rid in s.recvs
    ensures ReceivesKept(s, WaitRh(s, rid))
  {
    FinishRhKeepsReceives(s, rid);
    hide FinishRh;
    var t := WaitRh(s, rid);
    if s.recvs[rid].stat.Waitable() && s.recvs[rid].stat != MATCH { PutReceive(s, t, rid, t.recvs[rid]); }
  }

  lemma WakeRhKeepsReceives(s: State, rid: nat)
    requires rid in s.recvs
    ensures ReceivesKept(s, WakeRh(s, rid))
  {
    FinishRhKeepsReceives(s, rid);
    hide FinishRh;
    var t := WakeRh(s, rid);
    if s.recvs[rid].stat != MATCH { PutReceive(s, t, rid, t.recvs[rid]); }
  }

  lemma FinishKeepsReceives(s: State, sid: nat, ret: Ret)
    ensures FinishSh(s, sid, ret).recvs == s.recvs && LeaveBuffered(s, sid).recvs == s.recvs
  { }

  lemma PutKeepsReceives(s: State, sid: nat)
    ensures forall h :: s.PutS(sid, h).recvs == s.recvs
  { }

  lemma TailKeepsReceives(s: State, sid: nat)
    ensures RemoteWaitTail(s, sid).recvs == s.recvs
  {
    PutKeepsReceives(s, sid);
    FinishKeepsReceives(s, sid, SUCCESS);
    FinishKeepsReceives(s, sid, ERR_NRDY);
    FreedRecvs(FinishSh(s, sid, ERR_NRDY), sid, s.Snd(sid).req.mode != READY);
    hide FinishSh, LeaveBuffered, State.Flag, State.PutS;
  }

  lemma WaitKeepsReceives(s: State, sid: nat)
    ensures WaitSh(s, sid).recvs == s.recvs
  {
    PutKeepsReceives(s, sid);
    FinishKeepsReceives(s, sid, SUCCESS);
    FinishKeepsReceives(s, sid, ERR_NRDY);
    TailKeepsReceives(s, sid);
    FreedRecvs(s, sid, true);
    hide FinishSh, LeaveBuffered, RemoteWaitTail, State.Flag, State.PutS;
  }

  lemma WakeKeepsReceives(s: State, sid: nat)
    ensures WakeSh(s, sid).recvs == s.recvs
  {
    PutKeepsReceives(s, sid);
    FinishKeepsReceives(s, sid, SUCCESS);
    FreedRecvs(FinishSh(s, sid, SUCCESS), sid, s.Snd(sid).stat != MATCH);
    TailKeepsReceives(s, sid);
    hide FinishSh, LeaveBuffered, RemoteWaitTail, State.Flag, State.PutS;
  }

  lemma StepKeepsReceives(s: State, st: Step)
    requires Enabled(s, st)
    ensures ReceivesKept(s, Apply(s, st))
  {
    hide WaitSh, WakeSh, StartSh, StartRh, Handle, WaitRh, WakeRh;
    match st
    case SInit(_, _, _, _, _, _, _, _) =>
    case SStart(sid) => StartKeepsReceives(s, sid);
    case SWait(sid) => WaitKeepsReceives(s, sid);
    case SWake(sid) => WakeKeepsReceives(s, sid);
    case SScribble(_, _) =>
    case RInit(_, _) =>
    case RStart(rid) => StartRhKeepsReceives(s, rid);
    case RWait(rid) => WaitRhKeepsReceives(s, rid);
    case RWake(rid) => WakeRhKeepsReceives(s, rid);
    case Arrive(a, b, alloc) => HandleKeepsReceives(PopLink(s, a, b), s.Link(a, b)[0], alloc);
  }

  /** No step changes what a caller asked for: all that is said of requests is said of the arguments of the calls. */
  lemma {:induction false} RequestsStay(run: seq<State>, i: nat, j: nat)
    requires IsRun(run) && i <= j < |run|
    ensures forall sid :: sid in run[i].sends ==> sid in run[j].sends && run[j].sends[sid].req == run[i].sends[sid].req
    ensures forall rid :: rid in run[i].recvs ==> rid in run[j].recvs && run[j].recvs[rid].req == run[i].recvs[rid].req
    decreases j
  {
    hide Apply, Enabled;
    if i < j {
      RequestsStay(run, i, j - 1);
      RunReaches(run, j - 1);
      assert Next(run[j - 1], run[j - 1 + 1]);
      var st: Step :| Enabled(run[j - 1], st) && Apply(run[j - 1], st) == run[j];
      StepKeepsReceives(run[j - 1], st);
      forall sid | sid in run[j - 1].sends ensures sid in run[j].sends && run[j].sends[sid].req == run[j - 1].sends[sid].req {
        CopyMadeAndFreed(run[j - 1], st, sid);
      }
    }
  }
}
