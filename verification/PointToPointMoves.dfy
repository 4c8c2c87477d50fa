/** The steps of the point-to-point protocol that start, match or carry a message keep the invariant. */
module PointToPointMoves {
  import opened Basics
  import opened PointToPoint
  import opened PointToPointInv
  import opened PointToPointProof
  import opened PointToPointSteps

  /** What is left to show of a step that moves the token of `sid` and perhaps touches `rid`. */
  ghost predicate Fits(s: State, t: State, sid: nat, rid: nat)
    requires sid in s.sends && Touches(s, t, sid, rid) && PairsOk(s) && PairsOk(t)
  {
    var h, h' := s.sends[sid], t.sends[sid];
    // sends keep their order
    && ((h'.no == h.no && (h'.phase.Unmet() ==> h.phase.Unmet()) && (h'.phase.Fresh? <==> h.phase.Fresh?))
        || forall b :: b in t.matchOf ==> t.sends[b].no <= h'.no)
    && (sid in s.matchOf ==> h'.no == h.no)
    && (sid in t.matchOf && sid !in s.matchOf ==> forall a :: a in t.sends ==> NotOvertaken(t, a, sid))
    // receives keep their order
    && (rid in s.recvs ==>
          var r, r' := s.recvs[rid], t.recvs[rid];
          || (r'.no == r.no && (r'.phase.Posted? ==> r.phase.Posted?) && (r'.phase.Created? <==> r.phase.Created?))
          || forall b :: b in t.recvs && !t.recvs[b].phase.Created? ==> t.recvs[b].no <= r'.no)
    && (rid in s.recvs ==> t.recvs[rid].no == s.recvs[rid].no || s.recvs[rid].phase.Created?)
    && (sid in t.matchOf && sid !in s.matchOf ==> forall r :: r in t.recvs ==> NotPassedOver(t, r, sid))
  }

  lemma MoveKeeps(s: State, t: State, sid: nat, rid: nat)
    requires Inv(s) && sid in s.sends && Touches(s, t, sid, rid) && !t.err
    requires LinksFine(t) && SqsFine(t) && RqsFine(t) && ResourcesOk(t) && Apart(t) && QueueBeforeLink(t)
    requires rid in s.recvs ==> t.recvs[rid] == s.recvs[rid] || Mine(s.recvs[rid].phase, sid)
    requires sid in t.matchOf ==> PairOk(t, sid)
    requires SendOk(t, sid)
    requires rid in t.recvs && t.recvs[rid] != s.recvs[rid] ==> RecvOk(t, rid)
    requires sid in t.matchOf ==> sid in s.matchOf || t.sends[sid] != s.sends[sid]
    requires PairsOk(t) ==> Fits(s, t, sid, rid)
    ensures Inv(t)
  {
    hide HandlesOk, LinksFine, SqsFine, RqsFine, SendsInOrder, RecvsInOrder, ResourcesOk, SendOk, RecvOk, Apart, QueueBeforeLink, NotOvertaken, NotPassedOver;
    PairsKept(s, t, sid, rid);
    HandlesKept(s, t, sid, rid);
    SendsInOrderKept(s, t, sid, rid);
    RecvsInOrderKept(s, t, sid, rid);
  }

  // ---------- New handles ----------

  /** State `t` is `s` with one new send handle. */
  ghost predicate NewSend(s: State, t: State, sid: nat) {
    && sid !in s.sends && sid !in t.matchOf && sid in t.sends && SendOk(t, sid) && t.sends == s.sends[sid := t.sends[sid]] && t.sends[sid].phase.Fresh?
    && t.sends[sid].stat == CREATE && t.sysLive == s.sysLive + (if t.sends[sid].req.hasSys then {sid} else {})
    && t == s.(sends := t.sends, sysLive := t.sysLive)
  }

  lemma NewSendOk(s: State, sid: nat, src: Rank, dest: Rank, tag: int, ctx: nat, mode: Mode, buf: seq<Byte>, alloc: bool)
    requires sid !in s.sends && sid !in s.matchOf
    ensures var t := InitSh(s, sid, src, dest, tag, ctx, mode, buf, alloc); t != s ==> NewSend(s, t, sid)
  { }

  lemma NewSendPlaces(s: State, t: State, sid: nat)
    requires Inv(s) && NewSend(s, t, sid)
    ensures Apart(t) && QueueBeforeLink(t) && PairsOk(t)
  {
    hide LinksFine, SqsFine, RqsFine, SendsInOrder, RecvsInOrder, ResourcesOk, HandlesOk, SendOk;
    forall a | a in t.matchOf ensures PairOk(t, a) { PairAt(s, a); }
  }

  lemma NewSendKeeps(s: State, t: State, sid: nat)
    requires Inv(s) && NewSend(s, t, sid)
    ensures Inv(t)
  {
    NewSendPlaces(s, t, sid);
    hide LinksFine, SqsFine, RqsFine, SendsInOrder, RecvsInOrder, ResourcesOk, HandlesOk, SendOk, Apart, QueueBeforeLink, PairsOk, NewSend;
    NewSendTokens(s, t, sid);
    NewHandlesOk(s, t, sid);
    NewOrderOk(s, t, sid);
    NewResourcesOk(s, t, sid);
  }

  lemma NewSendTokens(s: State, t: State, sid: nat)
    requires LinksFine(s) && SqsFine(s) && RqsFine(s) && NewSend(s, t, sid)
    ensures LinksFine(t) && SqsFine(t) && RqsFine(t) && t.err == s.err
  {
    hide LinksFine, SqsFine, RqsFine, SendOk;
    TokensSame(s, t);
  }

  lemma InitShKeeps(s: State, sid: nat, src: Rank, dest: Rank, tag: int, ctx: nat, mode: Mode, buf: seq<Byte>, alloc: bool)
    requires Inv(s) && sid !in s.sends
    ensures Inv(InitSh(s, sid, src, dest, tag, ctx, mode, buf, alloc))
  {
    var t := InitSh(s, sid, src, dest, tag, ctx, mode, buf, alloc);
    if t != s {
      NewIsUnmatched(s, sid);
      NewSendOk(s, sid, src, dest, tag, ctx, mode, buf, alloc);
      hide Inv, InitSh, NewSend;
      NewSendKeeps(s, t, sid);
    }
  }

  lemma NewIsUnmatched(s: State, sid: nat)
    requires Inv(s) && sid !in s.sends
    ensures sid !in s.matchOf
  {
    hide LinksFine, SqsFine, RqsFine, SendsInOrder, RecvsInOrder, ResourcesOk, HandlesOk, Apart, QueueBeforeLink;
    if sid in s.matchOf { PairAt(s, sid); }
  }

  lemma NewHandlesOk(s: State, t: State, sid: nat)
    requires PairsOk(s) && HandlesOk(s) && PairsOk(t) && NewSend(s, t, sid)
    ensures HandlesOk(t)
  {
    hide SendOk;
    forall a | a in t.sends ensures SendOk(t, a) {
      if a != sid { if a in s.matchOf { PairAt(s, a); } SendOkFrame(s, t, a); }
    }
    forall b | b in t.recvs ensures RecvOk(t, b) { assert RecvOk(s, b); }
  }

  lemma NewOrderOk(s: State, t: State, sid: nat)
    requires PairsOk(s) && PairsOk(t) && SendsInOrder(s) && RecvsInOrder(s) && NewSend(s, t, sid)
    ensures SendsInOrder(t) && RecvsInOrder(t)
  {
    hide SendOk;
    forall a, b | a in t.sends && b in t.matchOf ensures NotOvertaken(t, a, b) {
      PairAt(s, b);
      if a != sid { assert NotOvertaken(s, a, b); }
    }
    forall r, a | r in t.recvs && a in t.matchOf ensures NotPassedOver(t, r, a) {
      PairAt(s, a);
      assert NotPassedOver(s, r, a);
    }
  }

  lemma NewResourcesOk(s: State, t: State, sid: nat)
    requires ResourcesOk(s) && NewSend(s, t, sid)
    ensures ResourcesOk(t)
  {
    hide SendOk;
  }

  lemma InitRhKeeps(s: State, rid: nat, req: RecvReq)
    requires Inv(s) && rid !in s.recvs
    ensures Inv(InitRh(s, rid, req))
  {
    hide LinksFine, SqsFine, RqsFine, SendsInOrder, RecvsInOrder, ResourcesOk, HandlesOk, Apart, QueueBeforeLink, RecvOk;
    var t := InitRh(s, rid, req);
    forall a | a in t.matchOf ensures PairOk(t, a) { PairAt(s, a); }
    NewRecvPlaces(s, rid, req);
    hide PairsOk;
    NewRecvOk(s, t, rid);
    NewRecvResourcesOk(s, t, rid);
  }

  lemma NewRecvPlaces(s: State, rid: nat, req: RecvReq)
    requires LinksFine(s) && SqsFine(s) && RqsFine(s) && Apart(s) && QueueBeforeLink(s) && rid !in s.recvs
    ensures var t := InitRh(s, rid, req); LinksFine(t) && SqsFine(t) && RqsFine(t) && Apart(t) && QueueBeforeLink(t) && RecvOk(t, rid)
  {
    hide LinksFine, SqsFine, RqsFine, QueueBeforeLink;
    TokensSame(s, InitRh(s, rid, req));
    NewRecvPairs(s, rid, req);
  }

  lemma NewRecvPairs(s: State, rid: nat, req: RecvReq)
    requires Apart(s) && QueueBeforeLink(s) && rid !in s.recvs
    ensures Apart(InitRh(s, rid, req)) && QueueBeforeLink(InitRh(s, rid, req))
  { }

  lemma NewRecvOk(s: State, t: State, rid: nat)
    requires PairsOk(s) && HandlesOk(s) && PairsOk(t) && SendsInOrder(s) && RecvsInOrder(s) && rid !in s.recvs
    requires rid in t.recvs && t.recvs == s.recvs[rid := t.recvs[rid]] && t.recvs[rid].phase.Created?
    requires t.sends == s.sends && t.matchOf == s.matchOf && t.clock == s.clock
    requires RecvOk(t, rid)
    ensures HandlesOk(t) && SendsInOrder(t) && RecvsInOrder(t)
  {
    hide SendOk;
    forall a | a in t.sends ensures SendOk(t, a) { if a in s.matchOf { PairAt(s, a); } SendOkFrame(s, t, a); }
    forall b | b in t.recvs ensures RecvOk(t, b) { if b != rid { assert RecvOk(s, b); } }
    hide RecvOk;
    NewRecvOrderOk(s, t, rid);
  }

  lemma NewRecvOrderOk(s: State, t: State, rid: nat)
    requires PairsOk(s) && PairsOk(t) && SendsInOrder(s) && RecvsInOrder(s) && rid !in s.recvs
    requires rid in t.recvs && t.recvs == s.recvs[rid := t.recvs[rid]] && t.recvs[rid].phase.Created?
    requires t.sends == s.sends && t.matchOf == s.matchOf
    ensures SendsInOrder(t) && RecvsInOrder(t)
  {
    forall a, b | a in t.sends && b in t.matchOf ensures NotOvertaken(t, a, b) { PairAt(s, b); assert NotOvertaken(s, a, b); }
    forall r, a | r in t.recvs && a in t.matchOf ensures NotPassedOver(t, r, a) {
      PairAt(s, a);
      if r != rid { assert NotPassedOver(s, r, a); }
    }
  }

  lemma NewRecvResourcesOk(s: State, t: State, rid: nat)
    requires ResourcesOk(s) && rid !in s.recvs && rid in t.recvs && t.recvs == s.recvs[rid := t.recvs[rid]]
    requires t.sends == s.sends && t.sfrees == s.sfrees && t.rfrees == s.rfrees && t.recvs[rid].stat == CREATE
    requires t.sysLive == s.sysLive
    ensures ResourcesOk(t)
  { }

  // ---------- What a search of a queue tells ----------

  lemma ClockBound(s: State)
    requires Inv(s)
    ensures forall a :: a in s.sends && !s.sends[a].phase.Fresh? ==> s.sends[a].no < s.clock
    ensures forall b :: b in s.recvs && !s.recvs[b].phase.Created? ==> s.recvs[b].no < s.clock
  {
    hide LinksFine, SqsFine, RqsFine, SendsInOrder, RecvsInOrder, ResourcesOk, Apart, QueueBeforeLink;
    forall a | a in s.sends && !s.sends[a].phase.Fresh? ensures s.sends[a].no < s.clock { SendAt(s, a); }
    forall b | b in s.recvs && !s.recvs[b].phase.Created? ensures s.recvs[b].no < s.clock { RecvAt(s, b); }
  }

  /** A posted receive is found by exactly the sends that it accepts. */
  lemma PostedCmp(s: State, rid: nat, q: SendReq)
    requires Inv(s) && rid in s.recvs && s.recvs[rid].phase.Posted? && s.recvs[rid].req.dest == q.dest
    ensures RqCmp(s.recvs[rid], q.ctx, q.tag, q.src) <==> Accepts(s.recvs[rid].req, q)
  {
    hide Inv;
    RecvAt(s, rid);
  }

  /** A queued send is found by exactly the receives that accept it. */
  lemma QueuedCmp(s: State, e: SEntry, r: RecvReq)
    requires Inv(s) && e.sid in s.sends && s.sends[e.sid].phase == Queued(e) && s.sends[e.sid].req.dest == r.dest
    ensures SqCmp(s, e, r.ctx, r.tag, r.src) <==> Accepts(r, s.sends[e.sid].req)
  {
    hide Inv;
    SendAt(s, e.sid);
  }

  lemma NoReceiveFor(s: State, q: SendReq)
    requires Inv(s) && forall j :: 0 <= j < |s.RQ(q.dest)| ==> !RqCmp(s.Rcv(s.RQ(q.dest)[j]), q.ctx, q.tag, q.src)
    ensures forall b :: b in s.recvs && s.recvs[b].phase.Posted? ==> !Accepts(s.recvs[b].req, q)
  {
    forall b | b in s.recvs && s.recvs[b].phase.Posted? && s.recvs[b].req.dest == q.dest ensures !Accepts(s.recvs[b].req, q) {
      assert b in s.RQ(q.dest) by { assert RqsFine(s); assert b !in {}; }
      hide Inv;
      PostedCmp(s, b, q);
    }
  }

  lemma NoSendFor(s: State, r: RecvReq)
    requires Inv(s) && forall j :: 0 <= j < |s.SQ(r.dest)| ==> !SqCmp(s, s.SQ(r.dest)[j], r.ctx, r.tag, r.src)
    ensures forall a :: a in s.sends && s.sends[a].phase.Queued? ==> !Accepts(r, s.sends[a].req)
  {
    forall a | a in s.sends && s.sends[a].phase.Queued? && s.sends[a].req.dest == r.dest ensures !Accepts(r, s.sends[a].req) {
      var e := s.sends[a].phase.e;
      assert e in s.SQ(r.dest) && e.sid == a by { assert SqsFine(s); assert a !in {}; }
      hide Inv;
      QueuedCmp(s, e, r);
    }
  }

  /** The receive that a search finds takes the send, and no earlier posted one does. */
  lemma FirstReceive(s: State, q: SendReq, i: nat)
    requires Inv(s) && i < |s.RQ(q.dest)| && RqCmp(s.Rcv(s.RQ(q.dest)[i]), q.ctx, q.tag, q.src)
    requires forall j :: 0 <= j < i ==> !RqCmp(s.Rcv(s.RQ(q.dest)[j]), q.ctx, q.tag, q.src)
    ensures var rid := s.RQ(q.dest)[i];
      && rid in s.recvs && s.recvs[rid].phase.Posted? && Accepts(s.recvs[rid].req, q)
      && forall r :: r in s.recvs && s.recvs[r].phase.Posted? && s.recvs[r].no < s.recvs[rid].no ==> !Accepts(s.recvs[r].req, q)
  {
    var d := q.dest;
    var rid := s.RQ(d)[i];
    assert RqOk(s, d, {}) && RqSorted(s, s.rq[d]);
    assert rid in s.RQ(d);
    PostedCmp(s, rid, q);
    forall r | r in s.recvs && s.recvs[r].phase.Posted? && s.recvs[r].no < s.recvs[rid].no && s.recvs[r].req.dest == d
      ensures !Accepts(s.recvs[r].req, q)
    {
      EarlierInRq(s, r, d, i);
      hide Inv;
      PostedCmp(s, r, q);
    }
  }

  lemma EarlierInRq(s: State, r: nat, d: Rank, i: nat)
    requires RqsFine(s) && r in s.recvs && s.recvs[r].phase.Posted? && s.recvs[r].req.dest == d
    requires i < |s.RQ(d)| && s.recvs[r].no < RecvNo(s, s.RQ(d)[i])
    ensures exists j :: 0 <= j < i && s.RQ(d)[j] == r
  {
    assert r !in {};
    assert RqSorted(s, s.rq[d]);
    var j :| 0 <= j < |s.RQ(d)| && s.RQ(d)[j] == r;
  }

  /** The send that a search finds is taken by the receive, and no earlier unmet one of its source is. */
  lemma FirstSend(s: State, r: RecvReq, i: nat)
    requires Inv(s) && i < |s.SQ(r.dest)| && SqCmp(s, s.SQ(r.dest)[i], r.ctx, r.tag, r.src)
    requires forall j :: 0 <= j < i ==> !SqCmp(s, s.SQ(r.dest)[j], r.ctx, r.tag, r.src)
    ensures var e := s.SQ(r.dest)[i];
      && e.sid in s.sends && s.sends[e.sid].phase == Queued(e)
      && s.sends[e.sid].req.dest == r.dest && Accepts(r, s.sends[e.sid].req)
      && forall a :: (a in s.sends && s.sends[a].phase.Unmet() && s.sends[a].req.src == s.sends[e.sid].req.src
           && s.sends[a].no < s.sends[e.sid].no) ==> !Accepts(r, s.sends[a].req)
  {
    var d := r.dest;
    var e := s.SQ(d)[i];
    assert SqOk(s, d, {}) && SqSorted(s, s.sq[d]);
    assert e in s.SQ(d);
    QueuedCmp(s, e, r);
    forall a | a in s.sends && s.sends[a].phase.Unmet() && s.sends[a].req.src == s.sends[e.sid].req.src
           && s.sends[a].no < s.sends[e.sid].no && s.sends[a].req.dest == d
      ensures !Accepts(r, s.sends[a].req)
    {
      assert s.sends[a].phase.Queued?;
      EarlierInSq(s, a, d, i);
      hide Inv;
      QueuedCmp(s, s.sends[a].phase.e, r);
    }
  }

  lemma EarlierInSq(s: State, a: nat, d: Rank, i: nat)
    requires SqsFine(s) && a in s.sends && s.sends[a].phase.Queued? && s.sends[a].req.dest == d
    requires i < |s.SQ(d)| && s.Snd(s.SQ(d)[i].sid).req.src == s.sends[a].req.src
    requires s.sends[a].no < SendNo(s, s.SQ(d)[i].sid)
    ensures s.sends[a].phase.e.sid == a
    ensures exists j :: 0 <= j < i && s.SQ(d)[j] == s.sends[a].phase.e
  {
    assert a !in {};
    assert SqSorted(s, s.sq[d]);
    var j :| 0 <= j < |s.SQ(d)| && s.SQ(d)[j] == s.sends[a].phase.e;
  }

  // ---------- The start of a send ----------

  lemma LinkNos(s: State, a: nat, b: nat)
    requires Inv(s)
    ensures forall n :: n in s.Link(a, b) ==> SendNo(s, n.sid) < s.clock
  {
    ClockBound(s);
    if (a, b) in s.links { assert LinkOk(s, (a, b), {}); }
  }

  lemma SqNos(s: State, d: Rank)
    requires Inv(s)
    ensures forall e :: e in s.SQ(d) ==> SendNo(s, e.sid) < s.clock
  {
    ClockBound(s);
    if d in s.sq { assert SqOk(s, d, {}); }
  }

  lemma RqNos(s: State, d: Rank)
    requires Inv(s)
    ensures forall r :: r in s.RQ(d) ==> RecvNo(s, r) < s.clock
  {
    ClockBound(s);
    if d in s.rq { assert RqOk(s, d, {}); }
  }

  /** The send that starts is the last one started. */
  lemma StartFits(s: State, t: State, sid: nat, rid: nat)
    requires Inv(s) && sid in s.sends && Touches(s, t, sid, rid) && PairsOk(t)
    requires sid !in s.matchOf && t.sends[sid].no == s.clock
    requires rid in s.recvs ==>
      && t.recvs[rid].no == s.recvs[rid].no && (t.recvs[rid].phase.Posted? ==> s.recvs[rid].phase.Posted?)
      && (t.recvs[rid].phase.Created? <==> s.recvs[rid].phase.Created?)
    requires sid in t.matchOf ==> (forall a :: a in t.sends ==> NotOvertaken(t, a, sid)) && (forall r :: r in t.recvs ==> NotPassedOver(t, r, sid))
    ensures Fits(s, t, sid, rid)
  {
    hide Inv, NotOvertaken, NotPassedOver;
    ClockBound(s);
    forall b | b in t.matchOf ensures t.sends[b].no <= t.sends[sid].no {
      if b != sid { assert b in s.matchOf; MatchedStarted(s, b); }
    }
  }

  lemma MatchedStarted(s: State, b: nat)
    requires Inv(s) && b in s.matchOf
    ensures b in s.sends && !s.sends[b].phase.Fresh?
  {
    assert PairsOk(s);
    PairAt(s, b);
    SendAt(s, b);
  }

  /** A step that changes one unmatched send and moves its token */
  ghost predicate OnlySend(s: State, t: State, sid: nat) {
    && sid in s.sends && sid in t.sends && t.sends == s.sends[sid := t.sends[sid]] && t.sends[sid].req == s.sends[sid].req
    && s.sends[sid].stat != FREE && t.sends[sid].stat != FREE
    && sid !in s.matchOf && t.matchOf == s.matchOf && t.recvs == s.recvs && s.clock <= t.clock && t.err == s.err
    && t.sfrees == s.sfrees && t.rfrees == s.rfrees && t.sysLive == s.sysLive
  }

  /** The send starts now, or it was started and meets no receive that it had not met. */
  ghost predicate StillOrNow(s: State, t: State, sid: nat) requires sid in s.sends && sid in t.sends {
    var h, h' := s.sends[sid], t.sends[sid];
    h'.no == s.clock || (h'.no == h.no && (h'.phase.Unmet() ==> h.phase.Unmet()) && !h'.phase.Fresh? && !h.phase.Fresh?)
  }

  lemma OnlySendFits(s: State, t: State, sid: nat)
    requires sid in s.sends && Touches(s, t, sid, 0) && PairsOk(s) && PairsOk(t)
    requires Inv(s) && OnlySend(s, t, sid) && StillOrNow(s, t, sid)
    ensures Fits(s, t, sid, 0)
  {
    hide PairsOk, HandlesOk, LinksFine, SqsFine, RqsFine, SendsInOrder, RecvsInOrder, ResourcesOk, Apart, QueueBeforeLink;
    if t.sends[sid].no == s.clock { StartFits(s, t, sid, 0); }
  }

  lemma OnlySendKeeps(s: State, t: State, sid: nat)
    requires Inv(s) && OnlySend(s, t, sid)
    requires LinksFine(t) && SqsFine(t) && RqsFine(t) && Apart(t) && QueueBeforeLink(t) && SendOk(t, sid)
    requires StillOrNow(s, t, sid)
    ensures Inv(t)
  {
    hide PairsOk, LinksFine, SqsFine, RqsFine, SendsInOrder, RecvsInOrder, ResourcesOk, HandlesOk, Apart, QueueBeforeLink, Fits, SendOk;
    ResourcesSame(s, t);
    if PairsOk(t) { OnlySendFits(s, t, sid); }
    MoveKeeps(s, t, sid, 0);
  }

  lemma StartRemoteTokens(s: State, t: State, sid: nat)
    requires Inv(s) && sid in s.sends && s.sends[sid].phase.Fresh? && s.sends[sid].req.Remote() && t == StartRemoteSh(s, sid)
    ensures LinksFine(t) && SqsFine(t) && RqsFine(t) && Apart(t) && QueueBeforeLink(t)
  {
    hide LinksFine, SqsFine, RqsFine, SendsInOrder, RecvsInOrder, ResourcesOk, HandlesOk, PairsOk, Apart;
    var q := s.sends[sid].req;
    ClockBound(s);
    LinkNos(s, q.src.mac, q.dest.mac);
    LinksPosted(s, t, sid, t.sends[sid].phase.m);
    SqsSame(s, t, sid);
    RqsSame(s, t);
    ApartKept(s, t, sid, 0);
    QueueBeforeLinkKept(s, t, sid, 0);
  }

  lemma StartRemoteOk(s: State, sid: nat)
    requires Placed(s, sid) && s.sends[sid].stat == CREATE && s.sends[sid].req.Remote()
    ensures var t := StartRemoteSh(s, sid); s.sends[sid].phase.Fresh? && OnlySend(s, t, sid) && SendOk(t, sid) && t.sends[sid].no == s.clock
  { }

  lemma StartRemoteKeeps(s: State, sid: nat)
    requires Inv(s) && sid in s.sends && s.sends[sid].stat == CREATE && s.sends[sid].req.Remote()
    ensures Inv(StartRemoteSh(s, sid))
  {
    hide Inv, StartRemoteSh, OnlySend, Placed;
    PlacedAt(s, sid);
    StartRemoteOk(s, sid);
    StartRemoteTokens(s, StartRemoteSh(s, sid), sid);
    OnlySendKeeps(s, StartRemoteSh(s, sid), sid);
  }

  lemma StartQueuedTokens(s: State, t: State, sid: nat)
    requires Inv(s) && sid in s.sends && s.sends[sid].phase.Fresh? && !s.sends[sid].req.Remote() && sid !in s.matchOf
    requires forall b :: b in s.recvs && s.recvs[b].phase.Posted? ==> !Accepts(s.recvs[b].req, s.sends[sid].req)
    requires t == QueueLocal(s, sid)
    ensures LinksFine(t) && SqsFine(t) && RqsFine(t) && Apart(t) && QueueBeforeLink(t)
  {
    hide LinksFine, SqsFine, RqsFine, SendsInOrder, RecvsInOrder, ResourcesOk, HandlesOk, PairsOk;
    var q := s.sends[sid].req;
    SqNos(s, q.dest);
    LinksSame(s, t, sid);
    SqsAdded(s, t, sid, LocalE(sid));
    RqsSame(s, t);
    ApartKept(s, t, sid, 0);
    NoFlightFrom(s, q);
    QueueBeforeLinkKept(s, t, sid, 0);
  }

  lemma StartQueuedOk(s: State, sid: nat)
    requires Placed(s, sid) && s.sends[sid].stat == CREATE && !s.sends[sid].req.Remote() && s.sends[sid].req.mode != READY
    ensures var t := QueueLocal(s, sid); s.sends[sid].phase.Fresh? && OnlySend(s, t, sid) && SendOk(t, sid) && t.sends[sid].no == s.clock
  { }

  lemma StartQueuedKeeps(s: State, sid: nat)
    requires Inv(s) && sid in s.sends && s.sends[sid].stat == CREATE && !s.sends[sid].req.Remote() && s.sends[sid].req.mode != READY
    requires forall b :: b in s.recvs && s.recvs[b].phase.Posted? ==> !Accepts(s.recvs[b].req, s.sends[sid].req)
    ensures Inv(QueueLocal(s, sid))
  {
    hide Inv, QueueLocal, OnlySend, Placed, Accepts;
    PlacedAt(s, sid);
    StartQueuedOk(s, sid);
    FreshSend(s, sid);
    StartQueuedTokens(s, QueueLocal(s, sid), sid);
    OnlySendKeeps(s, QueueLocal(s, sid), sid);
  }

  /** Messages on links are between different machines. */
  lemma NoFlightFrom(s: State, q: SendReq)
    requires Inv(s) && !q.Remote()
    ensures forall b :: b in s.sends && s.sends[b].phase.Flight? ==>
              !(s.sends[b].req.src.mac == q.src.mac && s.sends[b].req.dest == q.dest)
  {
    hide Inv;
    forall b | b in s.sends && s.sends[b].phase.Flight?
      ensures !(s.sends[b].req.src.mac == q.src.mac && s.sends[b].req.dest == q.dest)
    { SendAt(s, b); }
  }

  /** The outline of a step that makes a match: a new pair and nothing else. */
  ghost predicate NewPair(s: State, t: State, sid: nat, rid: nat) {
    && Touches(s, t, sid, rid) && sid in s.sends && rid in s.recvs
    && sid !in s.matchOf && t.matchOf == s.matchOf[sid := rid] && t.sends[sid] != s.sends[sid]
    && !t.recvs[rid].phase.Created? && !t.recvs[rid].phase.Posted? && !t.sends[sid].phase.Unmet()
    && t.sfrees == s.sfrees && t.rfrees == s.rfrees && t.sysLive == s.sysLive
  }

  /** A local send and the posted receive at index `i` that takes it */
  ghost predicate LocalPair(s: State, sid: nat, i: nat, rid: nat) {
    && sid in s.sends && s.sends[sid].stat == CREATE && s.sends[sid].phase.Fresh? && sid !in s.matchOf && !s.sends[sid].req.Remote()
    && i < |s.RQ(s.sends[sid].req.dest)| && rid == s.RQ(s.sends[sid].req.dest)[i]
    && rid in s.recvs && s.recvs[rid].phase.Posted? && Accepts(s.recvs[rid].req, s.sends[sid].req)
  }

  lemma StartMatchedOutline(s: State, t: State, sid: nat, i: nat, rid: nat)
    requires LocalPair(s, sid, i, rid) && t == MatchLocal(s, sid, i)
    ensures NewPair(s, t, sid, rid) && t.sends[sid].no == s.clock && t.recvs[rid].no == s.recvs[rid].no
  {
    hide CopyInto, Min, RemoveAt, Accepts;
  }

  lemma StartMatchedTokens(s: State, t: State, sid: nat, i: nat, rid: nat)
    requires LinksFine(s) && SqsFine(s) && RqsFine(s) && Apart(s) && QueueBeforeLink(s)
    requires LocalPair(s, sid, i, rid) && t == MatchLocal(s, sid, i)
    ensures LinksFine(t) && SqsFine(t) && RqsFine(t) && Apart(t) && QueueBeforeLink(t)
  {
    hide LinksFine, SqsFine, RqsFine, Apart, QueueBeforeLink, Accepts, CopyInto, Min, RemoveAt;
    LinksSame(s, t, sid);
    SqsSame(s, t, sid);
    RqsRemoved(s, t, s.sends[sid].req.dest, i);
    ApartKept(s, t, sid, rid);
    QueueBeforeLinkSame(s, t, sid, rid);
  }

  lemma StartMatchedHandles(s: State, t: State, sid: nat, i: nat, rid: nat)
    requires Inv(s) && LocalPair(s, sid, i, rid) && t == MatchLocal(s, sid, i)
    ensures PairOk(t, sid) && SendOk(t, sid) && RecvOk(t, rid) && !t.err
    ensures t.recvs[rid].stat != FREE && s.recvs[rid].stat != FREE && t.sends[sid].stat != FREE
  {
    hide LinksFine, SqsFine, RqsFine, SendsInOrder, RecvsInOrder, ResourcesOk, HandlesOk, PairsOk, Apart, QueueBeforeLink;
    SendAt(s, sid);
    RecvAt(s, rid);
  }

  lemma StartMatchedKeeps(s: State, sid: nat, i: nat, rid: nat)
    requires Inv(s) && LocalPair(s, sid, i, rid)
    requires forall r :: r in s.recvs && s.recvs[r].phase.Posted? && s.recvs[r].no < s.recvs[rid].no ==> !Accepts(s.recvs[r].req, s.sends[sid].req)
    ensures Inv(MatchLocal(s, sid, i))
  {
    hide LinksFine, SqsFine, RqsFine, SendsInOrder, RecvsInOrder, ResourcesOk, HandlesOk, Apart, QueueBeforeLink, Fits, SendOk, RecvOk, Accepts, MatchLocal, NotOvertaken, NotPassedOver;
    var t := MatchLocal(s, sid, i);
    StartMatchedOutline(s, t, sid, i, rid);
    StartMatchedTokens(s, t, sid, i, rid);
    StartMatchedHandles(s, t, sid, i, rid);
    ResourcesSame(s, t);
    if PairsOk(t) {
      StartMatchedOrder(s, t, sid, rid);
      StartFits(s, t, sid, rid);
    }
    MoveKeeps(s, t, sid, rid);
  }

  lemma StartShKeeps(s: State, sid: nat)
    requires Inv(s) && Enabled(s, SStart(sid))
    ensures Inv(StartSh(s, sid))
  {
    hide Inv, MatchLocal, QueueLocal, StartRemoteSh, Accepts, RqCmp;
    var q := s.sends[sid].req;
    if q.Remote() {
      StartRemoteKeeps(s, sid);
    } else {
      var i := FindRecv(s, s.RQ(q.dest), q.ctx, q.tag, q.src);
      if i == |s.RQ(q.dest)| {
        NoReceiveFor(s, q);
        StartQueuedKeeps(s, sid);
      } else {
        FirstReceive(s, q, i);
        FreshSend(s, sid);
        StartMatchedKeeps(s, sid, i, s.RQ(q.dest)[i]);
      }
    }
  }

  lemma FreshSend(s: State, sid: nat)
    requires Inv(s) && sid in s.sends && s.sends[sid].stat == CREATE
    ensures s.sends[sid].phase.Fresh? && sid !in s.matchOf
  {
    hide Inv;
    SendAt(s, sid);
  }

  lemma StartMatchedOrder(s: State, t: State, sid: nat, rid: nat)
    requires Inv(s) && PairsOk(t) && sid in s.sends && !s.sends[sid].req.Remote() && Touches(s, t, sid, rid)
    requires rid in s.recvs && s.recvs[rid].phase.Posted? && Accepts(s.recvs[rid].req, s.sends[sid].req)
    requires forall r :: r in s.recvs && s.recvs[r].phase.Posted? && s.recvs[r].no < s.recvs[rid].no ==> !Accepts(s.recvs[r].req, s.sends[sid].req)
    requires sid in t.matchOf && t.matchOf[sid] == rid && t.recvs[rid].no == s.recvs[rid].no && !t.recvs[rid].phase.Posted?
    ensures forall a :: a in t.sends ==> NotOvertaken(t, a, sid)
    ensures forall r :: r in t.recvs ==> NotPassedOver(t, r, sid)
  {
    hide LinksFine, SqsFine, RqsFine, SendsInOrder, RecvsInOrder, ResourcesOk, HandlesOk, QueueBeforeLink;
    NoFlightFrom(s, s.sends[sid].req);
    PairAt(t, sid);
    assert Apart(s);
    forall a | a in t.sends ensures NotOvertaken(t, a, sid) { }
    forall r | r in t.recvs ensures NotPassedOver(t, r, sid) { }
  }

  // ---------- The start of a receive ----------

  lemma CreatedRecv(s: State, rid: nat)
    requires Inv(s) && rid in s.recvs && s.recvs[rid].stat == CREATE
    ensures s.recvs[rid].phase.Created?
    ensures s.recvs[rid].src == s.recvs[rid].req.src && s.recvs[rid].tag == s.recvs[rid].req.tag
  {
    hide Inv;
    RecvAt(s, rid);
  }

  lemma PostKeeps(s: State, rid: nat)
    requires Inv(s) && rid in s.recvs && s.recvs[rid].stat == CREATE
    requires forall a :: a in s.sends && s.sends[a].phase.Queued? ==> !Accepts(s.recvs[rid].req, s.sends[a].req)
    ensures Inv(PostRecv(s, rid))
  {
    hide LinksFine, SqsFine, RqsFine, SendsInOrder, RecvsInOrder, ResourcesOk, HandlesOk, Apart, QueueBeforeLink;
    var t := PostRecv(s, rid);
    CreatedRecv(s, rid);
    PostTokens(s, t, rid);
    PostHandles(s, t, rid);
    ResourcesSame(s, t);
    PostOrder(s, t, rid);
  }

  lemma PostTokens(s: State, t: State, rid: nat)
    requires Inv(s) && rid in s.recvs && s.recvs[rid].phase.Created? && t == PostRecv(s, rid)
    requires forall a :: a in s.sends && s.sends[a].phase.Queued? ==> !Accepts(s.recvs[rid].req, s.sends[a].req)
    ensures LinksFine(t) && SqsFine(t) && RqsFine(t) && Apart(t) && QueueBeforeLink(t)
  {
    hide LinksOk, SqsOk, LinksSorted, SqsSorted, RqsFine, SendsInOrder, RecvsInOrder, ResourcesOk, HandlesOk, PairsOk;
    RqNos(s, s.recvs[rid].req.dest);
    LinksFrame(s, t, {});
    LinksSortedFrame(s, t, {});
    SqsFrame(s, t, {});
    SqsSortedFrame(s, t, {});
    RqsAdded(s, t, rid);
  }

  lemma PostHandles(s: State, t: State, rid: nat)
    requires Inv(s) && rid in s.recvs && s.recvs[rid].stat == CREATE && t == PostRecv(s, rid)
    ensures PairsOk(t) && HandlesOk(t)
  {
    hide LinksFine, SqsFine, RqsFine, SendsInOrder, RecvsInOrder, ResourcesOk, Apart, QueueBeforeLink, SendOk, RecvOk;
    CreatedRecv(s, rid);
    forall a | a in t.matchOf ensures PairOk(t, a) { PairAt(s, a); }
    forall a | a in t.sends ensures SendOk(t, a) { if a in s.matchOf { PairAt(s, a); } SendOkFrame(s, t, a); }
    forall b | b in t.recvs ensures RecvOk(t, b) {
      assert RecvOk(s, b);
      if b == rid { PostedOk(s, t, rid); } else { PostFrame(s, t, rid, b); }
    }
  }

  lemma PostedOk(s: State, t: State, rid: nat)
    requires rid in s.recvs && s.recvs[rid].stat == CREATE && RecvOk(s, rid) && t == PostRecv(s, rid)
    ensures RecvOk(t, rid)
  { }

  lemma PostFrame(s: State, t: State, rid: nat, b: nat)
    requires rid in s.recvs && b in s.recvs && b != rid && RecvOk(s, b) && t == PostRecv(s, rid)
    ensures RecvOk(t, b)
  { }

  lemma PostOrder(s: State, t: State, rid: nat)
    requires Inv(s) && PairsOk(t) && rid in s.recvs && s.recvs[rid].phase.Created? && t.recvs.Keys == s.recvs.Keys
    requires t.sends == s.sends && t.matchOf == s.matchOf && t.recvs[rid].no == s.clock && t.recvs[rid].req == s.recvs[rid].req
    requires forall b :: b in s.recvs && b != rid ==> t.recvs[b] == s.recvs[b]
    ensures SendsInOrder(t) && RecvsInOrder(t)
  {
    hide LinksFine, SqsFine, RqsFine, ResourcesOk, HandlesOk, Apart, QueueBeforeLink;
    ClockBound(s);
    forall a, b | a in t.sends && b in t.matchOf ensures NotOvertaken(t, a, b) { PairAt(s, b); assert NotOvertaken(s, a, b); }
    forall r, a | r in t.recvs && a in t.matchOf ensures NotPassedOver(t, r, a) { PairAt(s, a); assert NotPassedOver(s, r, a); }
  }

  /** A receive and the queued send at index `i` that it takes */
  ghost predicate QueuedPair(s: State, rid: nat, i: nat, e: SEntry) {
    && rid in s.recvs && s.recvs[rid].stat == CREATE && s.recvs[rid].phase.Created?
    && s.recvs[rid].src == s.recvs[rid].req.src && s.recvs[rid].tag == s.recvs[rid].req.tag
    && i < |s.SQ(s.recvs[rid].req.dest)| && e == s.SQ(s.recvs[rid].req.dest)[i]
    && e.sid in s.sends && s.sends[e.sid].phase == Queued(e) && e.sid !in s.matchOf
    && EntryOk(s.sends[e.sid], e.sid, e) && s.sends[e.sid].req.dest == s.recvs[rid].req.dest
    && Accepts(s.recvs[rid].req, s.sends[e.sid].req)
  }

  /** The outline of the step that takes a queued send */
  ghost predicate TakenPair(s: State, t: State, sid: nat, rid: nat) {
    && Touches(s, t, sid, rid) && sid in s.sends && rid in s.recvs && s.recvs[rid].phase.Created?
    && sid !in s.matchOf && t.matchOf == s.matchOf[sid := rid] && t.sends[sid] != s.sends[sid]
    && t.sends[sid].no == s.sends[sid].no && !t.sends[sid].phase.Fresh? && !s.sends[sid].phase.Fresh?
    && !t.sends[sid].phase.Unmet() && t.recvs[rid].no == s.clock && t.clock == s.clock + 1
    && !t.recvs[rid].phase.Created? && !t.recvs[rid].phase.Posted? && t.rfrees == s.rfrees
  }

  /** All fields of the state after a local send is taken */
  ghost predicate TookLocal(s: State, t: State, rid: nat, i: nat, e: SEntry)
    requires QueuedPair(s, rid, i, e)
  {
    var sid, r, h := e.sid, s.recvs[rid], s.sends[e.sid];
    var n := Min(h.buflen, r.buflen);
    && t.sends == s.sends[sid := MatchSend(h.(buflen := n, phase := Done))]
    && t.recvs == s.recvs[rid := r.(src := Is(h.req.src), tag := Is(h.req.tag), buflen := n, stat := MATCH,
                                    data := CopyInto(r.data, h.CurData(), n), phase := Received(sid), no := s.clock)]
    && t.sq == s.sq[r.req.dest := RemoveAt(s.SQ(r.req.dest), i)] && t.rq == s.rq && t.links == s.links
    && t.clock == s.clock + 1 && t.matchOf == s.matchOf[sid := rid] && t.rfrees == s.rfrees
    && t.sfrees == s.sfrees + (if h.stat == PEND_RELS then [sid] else [])
    && t.sysLive == s.sysLive - (if h.stat == PEND_RELS then {sid} else {})
    && t.err == (s.err || (h.stat != PEND_WAIT && h.stat != PEND_STRT && h.stat != PEND_RELS))
  }

  lemma TakeLocalFields(s: State, rid: nat, sid: nat)
    requires rid in s.recvs && sid in s.sends
    ensures var u, r, h := TakeLocal(s, rid, sid), s.recvs[rid], s.sends[sid];
      var n := Min(h.buflen, r.buflen);
      && u.sends == s.sends[sid := MatchSend(h.(buflen := n, phase := Done))]
      && u.recvs == s.recvs[rid := r.(src := Is(h.req.src), tag := Is(h.req.tag), buflen := n, stat := MATCH,
                                      data := CopyInto(r.data, h.CurData(), n), phase := Received(sid), no := s.clock)]
      && u.sq == s.sq && u.rq == s.rq && u.links == s.links && u.rfrees == s.rfrees
      && u.sfrees == s.sfrees + (if h.stat == PEND_RELS then [sid] else [])
      && u.sysLive == s.sysLive - (if h.stat == PEND_RELS then {sid} else {})
      && u.err == (s.err || (h.stat != PEND_WAIT && h.stat != PEND_STRT && h.stat != PEND_RELS))
  {
    hide CopyInto, Min, MatchSend;
    assert s.sfrees + [] == s.sfrees && s.sysLive - {} == s.sysLive;
    if s.sends[sid].stat == PEND_RELS { } else { }
  }

  lemma TakeLocalShape(s: State, t: State, rid: nat, i: nat, e: SEntry)
    requires QueuedPair(s, rid, i, e) && t == TakeSend(s, rid, i) && e.LocalE?
    ensures TookLocal(s, t, rid, i, e)
  {
    TakeLocalFields(s, rid, e.sid);
    hide TakeLocal, CopyInto, Min, RemoveAt, Accepts, EntryOk, MatchSend;
  }

  /** All fields of the state after a remote send is taken */
  ghost predicate TookRemote(s: State, t: State, rid: nat, i: nat, e: SEntry)
    requires QueuedPair(s, rid, i, e) && e.RemoteE?
  {
    var sid, r, h := e.sid, s.recvs[rid], s.sends[e.sid];
    var n := Min(e.hdr.buflen, r.buflen);
    var m := if e.data.Some? then RMDR(sid, n) else RMR(sid, rid, n);
    var r' := r.(src := Is(e.hdr.src), tag := Is(e.hdr.tag), buflen := n, no := s.clock);
    && t.sends == s.sends[sid := h.(phase := Flight(m))]
    && t.recvs == s.recvs[rid := if e.data.Some?
                                 then r'.(stat := MATCH, data := CopyInto(r.data, e.data.value, n), phase := Received(sid))
                                 else r'.(stat := PEND_DATA, phase := Awaiting(sid))]
    && t.sq == s.sq[r.req.dest := RemoveAt(s.SQ(r.req.dest), i)] && t.rq == s.rq
    && t.links == s.Post(r.req.dest.mac, e.hdr.src.mac, m).links
    && t.clock == s.clock + 1 && t.matchOf == s.matchOf[sid := rid] && t.rfrees == s.rfrees
    && t.sfrees == s.sfrees && t.sysLive == s.sysLive && t.err == s.err
  }

  lemma TakeRemoteShape(s: State, t: State, rid: nat, i: nat, e: SEntry)
    requires QueuedPair(s, rid, i, e) && t == TakeSend(s, rid, i) && e.RemoteE?
    ensures TookRemote(s, t, rid, i, e)
  {
    hide CopyInto, Min, RemoveAt, Accepts, EntryOk;
  }

  /** What the two ways of taking a queued send have in common */
  ghost predicate TakeOutlined(s: State, t: State, rid: nat, i: nat, e: SEntry)
    requires QueuedPair(s, rid, i, e)
  {
    && TakenPair(s, t, e.sid, rid) && t.rq == s.rq
    && t.sq == s.sq[s.recvs[rid].req.dest := RemoveAt(s.SQ(s.recvs[rid].req.dest), i)]
    && (e.LocalE? ==> t.sends[e.sid].phase == Done && t.links == s.links)
    && (e.RemoteE? ==>
         var h := t.sends[e.sid];
         && h.phase.Flight? && h.phase.m.sid == e.sid && (h.phase.m.RMDR? || h.phase.m.RMR?)
         && t.links == s.Post(h.req.dest.mac, h.req.src.mac, h.phase.m).links)
  }

  lemma TakeLocalOutline(s: State, t: State, rid: nat, i: nat, e: SEntry)
    requires QueuedPair(s, rid, i, e) && e.LocalE? && TookLocal(s, t, rid, i, e)
    ensures TakeOutlined(s, t, rid, i, e)
  {
    hide CopyInto, Min, RemoveAt, Accepts;
  }

  lemma TakeRemoteOutline(s: State, t: State, rid: nat, i: nat, e: SEntry)
    requires QueuedPair(s, rid, i, e) && e.RemoteE? && TookRemote(s, t, rid, i, e)
    ensures TakeOutlined(s, t, rid, i, e)
  {
    hide CopyInto, Min, RemoveAt, Accepts;
  }

  lemma TakeTokens(s: State, t: State, rid: nat, i: nat, e: SEntry)
    requires LinksFine(s) && SqsFine(s) && RqsFine(s) && Apart(s) && QueueBeforeLink(s)
    requires QueuedPair(s, rid, i, e) && TakeOutlined(s, t, rid, i, e)
    ensures LinksFine(t) && SqsFine(t) && RqsFine(t) && Apart(t) && QueueBeforeLink(t)
  {
    hide LinksFine, SqsFine, RqsFine, Apart, QueueBeforeLink, Accepts, RemoveAt;
    var sid := e.sid;
    if e.LocalE? { LinksSame(s, t, sid); } else { LinksPosted(s, t, sid, t.sends[sid].phase.m); }
    SqsRemoved(s, t, s.recvs[rid].req.dest, i);
    RqsSameBut(s, t, rid);
    ApartKept(s, t, sid, rid);
    QueueBeforeLinkSame(s, t, sid, rid);
  }

  lemma TakeLocalHandles(s: State, t: State, rid: nat, i: nat, e: SEntry)
    requires QueuedPair(s, rid, i, e) && TookLocal(s, t, rid, i, e) && !s.err && e.LocalE?
    requires SendOk(s, e.sid) && RecvOk(s, rid)
    ensures e.sid in t.matchOf && PairOk(t, e.sid) && e.sid in t.sends && SendOk(t, e.sid) && rid in t.recvs && RecvOk(t, rid) && !t.err
    ensures t.recvs[rid].stat != FREE && s.sends[e.sid].stat != FREE
    ensures t.sends[e.sid].stat == FREE <==> s.sends[e.sid].stat == PEND_RELS
  {
    hide RemoveAt;
  }

  lemma TakeRemoteHandles(s: State, t: State, rid: nat, i: nat, e: SEntry)
    requires QueuedPair(s, rid, i, e) && e.RemoteE? && TookRemote(s, t, rid, i, e) && !s.err
    requires SendOk(s, e.sid) && RecvOk(s, rid)
    ensures e.sid in t.matchOf && PairOk(t, e.sid) && e.sid in t.sends && SendOk(t, e.sid) && rid in t.recvs && RecvOk(t, rid) && !t.err
    ensures t.recvs[rid].stat != FREE && t.sends[e.sid].stat == s.sends[e.sid].stat && s.sends[e.sid].stat != FREE
  {
    hide RemoveAt;
  }

  /** What the resources can tell of a local send that is taken */
  ghost predicate Released(s: State, t: State, sid: nat, rid: nat) {
    && sid in s.sends && rid in s.recvs && t.sends.Keys == s.sends.Keys && t.recvs.Keys == s.recvs.Keys
    && (forall a :: a in s.sends ==> t.sends[a].req == s.sends[a].req)
    && (forall a :: a in s.sends && a != sid ==> t.sends[a] == s.sends[a])
    && (forall b :: b in s.recvs && b != rid ==> t.recvs[b] == s.recvs[b])
    && t.rfrees == s.rfrees && s.recvs[rid].stat != FREE
    && var rels := s.sends[sid].stat == PEND_RELS;
       t.sfrees == s.sfrees + (if rels then [sid] else []) && t.sysLive == s.sysLive - (if rels then {sid} else {})
  }

  lemma TakeLocalReleases(s: State, t: State, rid: nat, i: nat, e: SEntry)
    requires QueuedPair(s, rid, i, e) && e.LocalE? && TookLocal(s, t, rid, i, e)
    ensures Released(s, t, e.sid, rid)
  {
    hide Accepts, EntryOk, RemoveAt, CopyInto, Min;
  }

  lemma TakeLocalResources(s: State, t: State, sid: nat, rid: nat)
    requires ResourcesOk(s) && Released(s, t, sid, rid)
    requires t.recvs[rid].stat != FREE && s.sends[sid].stat != FREE
    requires t.sends[sid].stat == FREE <==> s.sends[sid].stat == PEND_RELS
    ensures ResourcesOk(t)
  {
    hide ResourcesOk;
    if s.sends[sid].stat == PEND_RELS { ResourcesFreeS(s, t, sid); } else { ResourcesSame(s, t); }
  }

  lemma TakeRemoteResources(s: State, t: State, rid: nat, i: nat, e: SEntry)
    requires ResourcesOk(s) && QueuedPair(s, rid, i, e) && e.RemoteE? && TookRemote(s, t, rid, i, e)
    requires t.recvs[rid].stat != FREE && t.sends[e.sid].stat == s.sends[e.sid].stat
    ensures ResourcesOk(t)
  {
    hide ResourcesOk, Accepts, EntryOk, RemoveAt, CopyInto, Min;
    ResourcesSame(s, t);
  }

  lemma TakeHandles(s: State, t: State, rid: nat, i: nat, e: SEntry)
    requires Inv(s) && QueuedPair(s, rid, i, e)
    requires if e.LocalE? then TookLocal(s, t, rid, i, e) else TookRemote(s, t, rid, i, e)
    ensures e.sid in t.matchOf && PairOk(t, e.sid) && e.sid in t.sends && SendOk(t, e.sid) && rid in t.recvs && RecvOk(t, rid) && !t.err && ResourcesOk(t)
  {
    hide LinksFine, SqsFine, RqsFine, SendsInOrder, RecvsInOrder, ResourcesOk, HandlesOk, Apart, QueueBeforeLink, SendOk, RecvOk, TookLocal, TookRemote, Released;
    SendAt(s, e.sid);
    RecvAt(s, rid);
    if e.LocalE? {
      TakeLocalHandles(s, t, rid, i, e);
      TakeLocalReleases(s, t, rid, i, e);
      TakeLocalResources(s, t, e.sid, rid);
    } else {
      TakeRemoteHandles(s, t, rid, i, e);
      TakeRemoteResources(s, t, rid, i, e);
    }
  }

  lemma TakeFits(s: State, t: State, sid: nat, rid: nat)
    requires Inv(s) && PairsOk(t) && TakenPair(s, t, sid, rid)
    requires s.sends[sid].phase.Queued? && Accepts(s.recvs[rid].req, s.sends[sid].req)
    requires forall a :: (a in s.sends && s.sends[a].phase.Unmet() && s.sends[a].req.src == s.sends[sid].req.src
               && s.sends[a].no < s.sends[sid].no) ==> !Accepts(s.recvs[rid].req, s.sends[a].req)
    ensures Fits(s, t, sid, rid)
  {
    hide LinksFine, SqsFine, RqsFine, SendsInOrder, RecvsInOrder, ResourcesOk, HandlesOk, QueueBeforeLink, Accepts;
    ClockBound(s);
    PairAt(t, sid);
    assert Apart(s);
    forall a | a in t.sends ensures NotOvertaken(t, a, sid) { }
    forall r | r in t.recvs ensures NotPassedOver(t, r, sid) { }
  }

  lemma TakeKeeps(s: State, rid: nat, i: nat, e: SEntry)
    requires Inv(s) && QueuedPair(s, rid, i, e)
    requires forall a :: (a in s.sends && s.sends[a].phase.Unmet() && s.sends[a].req.src == s.sends[e.sid].req.src
               && s.sends[a].no < s.sends[e.sid].no) ==> !Accepts(s.recvs[rid].req, s.sends[a].req)
    ensures Inv(TakeSend(s, rid, i))
  {
    hide LinksFine, SqsFine, RqsFine, SendsInOrder, RecvsInOrder, ResourcesOk, HandlesOk, Apart, QueueBeforeLink, Fits, SendOk, RecvOk, Accepts, TakeSend, EntryOk, TookLocal, TookRemote;
    var t := TakeSend(s, rid, i);
    if e.LocalE? {
      TakeLocalShape(s, t, rid, i, e);
      TakeLocalOutline(s, t, rid, i, e);
    } else {
      TakeRemoteShape(s, t, rid, i, e);
      TakeRemoteOutline(s, t, rid, i, e);
    }
    TakeTokens(s, t, rid, i, e);
    TakeHandles(s, t, rid, i, e);
    if PairsOk(t) { TakeFits(s, t, e.sid, rid); }
    MoveKeeps(s, t, e.sid, rid);
  }

  lemma StartRhKeeps(s: State, rid: nat)
    requires Inv(s) && Enabled(s, RStart(rid))
    ensures Inv(StartRh(s, rid))
  {
    hide Inv, TakeSend, PostRecv, Accepts, SqCmp;
    var r := s.recvs[rid].req;
    CreatedRecv(s, rid);
    var q := s.SQ(r.dest);
    var i := FindSend(s, q, r.ctx, r.tag, r.src);
    if i == |q| {
      NoSendFor(s, r);
      PostKeeps(s, rid);
    } else {
      FirstSend(s, r, i);
      QueuedSend(s, q[i]);
      TakeKeeps(s, rid, i, q[i]);
    }
  }

  lemma QueuedSend(s: State, e: SEntry)
    requires Inv(s) && e.sid in s.sends && s.sends[e.sid].phase == Queued(e)
    ensures e.sid !in s.matchOf && EntryOk(s.sends[e.sid], e.sid, e)
  {
    hide Inv;
    SendAt(s, e.sid);
  }
}
