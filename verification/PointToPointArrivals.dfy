/** The message handlers of the point-to-point protocol keep the invariant. */
module PointToPointArrivals {
  import opened Basics
  import opened PointToPoint
  import opened PointToPointInv
  import opened PointToPointProof
  import opened PointToPointSteps
  import opened PointToPointMoves

  /** What the invariant says of the message at the head of a link */
  ghost predicate Head(s: State, a: nat, b: nat, m: Msg) {
    && s.Link(a, b) != [] && m == s.Link(a, b)[0] && m.sid in s.sends
    && s.sends[m.sid].phase == Flight(m) && (a, b) == LinkOf(s.sends[m.sid].req, m)
    && (m.sid in s.matchOf ==> PairOk(s, m.sid)) && SendOk(s, m.sid)
  }

  lemma HeadAt(s: State, a: nat, b: nat)
    requires Inv(s) && s.Link(a, b) != []
    ensures Head(s, a, b, s.Link(a, b)[0])
  {
    hide LinksSorted, SqsFine, RqsFine, SendsInOrder, RecvsInOrder, ResourcesOk, HandlesOk, PairsOk, Apart, QueueBeforeLink, SendOk;
    assert LinkOk(s, (a, b), {});
    SendAt(s, s.Link(a, b)[0].sid);
  }

  // ---------- Replies that end a send ----------

  /** The outline of a step that only the record of the send at the head of the link knows of */
  ghost predicate Ended(s: State, t: State, a: nat, b: nat, sid: nat)
    requires s.Link(a, b) != []
  {
    && sid in s.sends && sid in t.sends && t.sends == s.sends[sid := t.sends[sid]]
    && t.sends[sid].req == s.sends[sid].req && t.sends[sid].no == s.sends[sid].no
    && (t.sends[sid].phase == Done || t.sends[sid].phase == Refused)
    && t.recvs == s.recvs && t.sq == s.sq && t.rq == s.rq && t.links == PopLink(s, a, b).links
    && t.matchOf == s.matchOf && t.clock == s.clock && t.rfrees == s.rfrees
  }

  lemma EndedKeeps(s: State, t: State, a: nat, b: nat, m: Msg)
    requires Inv(s) && Head(s, a, b, m) && Ended(s, t, a, b, m.sid) && !t.err && ResourcesOk(t)
    requires m.sid in t.matchOf ==> PairOk(t, m.sid)
    requires SendOk(t, m.sid)
    ensures Inv(t)
  {
    hide LinksFine, SqsFine, RqsFine, SendsInOrder, RecvsInOrder, ResourcesOk, HandlesOk, Apart, QueueBeforeLink, SendOk, RecvOk;
    var sid := m.sid;
    LinksPopped(s, t, a, b);
    SqsSame(s, t, sid);
    RqsSame(s, t);
    ApartKept(s, t, sid, 0);
    QueueBeforeLinkSame(s, t, sid, 0);
    MoveKeeps(s, t, sid, 0);
  }

  /** An acknowledged send: matched for a caller that waits or will wait, or freed on the spot. */
  ghost predicate Acked(s: State, t: State, sid: nat, h': Send) {
    && sid in s.sends && t.sends == s.sends[sid := h'] && t.matchOf == s.matchOf && t.recvs == s.recvs && t.clock == s.clock
    && (if s.sends[sid].stat == PEND_RELS then t.sfrees == s.sfrees + [sid] && t.sysLive == s.sysLive - {sid}
        else t.sfrees == s.sfrees && t.sysLive == s.sysLive)
  }

  lemma AckedOk(s: State, t: State, m: Msg, h': Send)
    requires m.sid in s.sends && s.sends[m.sid].phase == Flight(m) && Acked(s, t, m.sid, h')
    requires (m.RMDR? && h' == ShortDone(s.sends[m.sid], m.buflen)) || (m.RDR? && h' == LongDone(s.sends[m.sid], m.buflen))
    requires m.sid in s.matchOf && PairOk(s, m.sid) && SendOk(s, m.sid)
    ensures SendOk(t, m.sid) && PairOk(t, m.sid) && s.sends[m.sid].stat != FREE
    ensures h'.stat == FREE <==> s.sends[m.sid].stat == PEND_RELS
    ensures m.RMDR? ==> s.sends[m.sid].stat == PEND_STRT || s.sends[m.sid].stat == PEND_WAIT || s.sends[m.sid].stat == PEND_RELS
    ensures m.RDR? ==> s.sends[m.sid].stat == PEND_DATA || s.sends[m.sid].stat == PEND_DWAT || s.sends[m.sid].stat == PEND_RELS
  { }

  lemma AckedResources(s: State, t: State, sid: nat, h': Send)
    requires ResourcesOk(s) && Acked(s, t, sid, h') && t.rfrees == s.rfrees
    requires h'.req == s.sends[sid].req && s.sends[sid].stat != FREE && (h'.stat == FREE <==> s.sends[sid].stat == PEND_RELS)
    ensures ResourcesOk(t)
  {
    hide ResourcesOk;
    if s.sends[sid].stat == PEND_RELS { ResourcesFreeS(s, t, sid); } else { ResourcesSame(s, t); }
  }

  lemma RmdrKeeps(s: State, a: nat, b: nat, m: Msg)
    requires Inv(s) && Head(s, a, b, m) && m.RMDR?
    ensures Inv(RmdrHandle(PopLink(s, a, b), m.sid, m.buflen))
  {
    hide LinksFine, SqsFine, RqsFine, SendsInOrder, RecvsInOrder, ResourcesOk, HandlesOk, PairsOk, Apart, QueueBeforeLink, SendOk;
    var t := RmdrHandle(PopLink(s, a, b), m.sid, m.buflen);
    var h' := ShortDone(s.sends[m.sid], m.buflen);
    AckedMet(s, m);
    AckedOk(s, t, m, h');
    AckedResources(s, t, m.sid, h');
    EndedKeeps(s, t, a, b, m);
  }

  lemma AckedMet(s: State, m: Msg)
    requires m.sid in s.sends && s.sends[m.sid].phase == Flight(m) && (m.sid in s.matchOf ==> PairOk(s, m.sid)) && SendOk(s, m.sid)
    ensures m.sid in s.matchOf <==> !m.Request() && !m.RNDY?
  { }

  lemma RdrKeeps(s: State, a: nat, b: nat, m: Msg)
    requires Inv(s) && Head(s, a, b, m) && m.RDR?
    ensures Inv(RdrHandle(PopLink(s, a, b), m.sid, m.buflen))
  {
    hide LinksFine, SqsFine, RqsFine, SendsInOrder, RecvsInOrder, ResourcesOk, HandlesOk, PairsOk, Apart, QueueBeforeLink, SendOk;
    var t := RdrHandle(PopLink(s, a, b), m.sid, m.buflen);
    var h' := LongDone(s.sends[m.sid], m.buflen);
    AckedMet(s, m);
    AckedOk(s, t, m, h');
    AckedResources(s, t, m.sid, h');
    EndedKeeps(s, t, a, b, m);
  }

  lemma RndyOk(s: State, a: nat, b: nat, m: Msg)
    requires Head(s, a, b, m) && m.RNDY?
    ensures var t := RndyHandle(PopLink(s, a, b), m.sid);
      && Ended(s, t, a, b, m.sid) && t.err == s.err && m.sid !in t.matchOf && SendOk(t, m.sid)
      && s.sends[m.sid].stat != FREE && t.sends[m.sid].stat != FREE
      && t.sfrees == s.sfrees && t.sysLive == s.sysLive
  { }

  lemma RndyKeeps(s: State, a: nat, b: nat, m: Msg)
    requires Inv(s) && Head(s, a, b, m) && m.RNDY?
    ensures Inv(RndyHandle(PopLink(s, a, b), m.sid))
  {
    hide LinksFine, SqsFine, RqsFine, SendsInOrder, RecvsInOrder, ResourcesOk, HandlesOk, PairsOk, Apart, QueueBeforeLink, SendOk, RndyHandle, PopLink;
    var t := RndyHandle(PopLink(s, a, b), m.sid);
    RndyOk(s, a, b, m);
    ResourcesSame(s, t);
    EndedKeeps(s, t, a, b, m);
  }

  // ---------- The exchange of a long send ----------

  /** A reply to the message at the head of the link: one send and perhaps one receive change */
  ghost predicate Replied(s: State, t: State, a: nat, b: nat, sid: nat, rid: nat, m: Msg)
    requires s.Link(a, b) != []
  {
    && sid in s.sends && sid in t.sends && t.sends == s.sends[sid := t.sends[sid]] && m.sid == sid && !m.Request()
    && t.sends[sid].req == s.sends[sid].req && t.sends[sid].no == s.sends[sid].no && t.sends[sid].phase == Flight(m)
    && rid in s.recvs && rid in t.recvs && t.recvs == s.recvs[rid := t.recvs[rid]]
    && t.recvs[rid].req == s.recvs[rid].req && t.recvs[rid].no == s.recvs[rid].no
    && !s.recvs[rid].phase.Created? && !t.recvs[rid].phase.Created? && !t.recvs[rid].phase.Posted?
    && t.sq == s.sq && t.clock == s.clock && t.rfrees == s.rfrees && t.sfrees == s.sfrees && t.sysLive == s.sysLive
    && var k := LinkOf(s.sends[sid].req, m); t.links == PopLink(s, a, b).Post(k.0, k.1, m).links
  }

  /** All fields that the handler of an RMR message writes */
  lemma RmrShape(s: State, t: State, a: nat, b: nat, m: Msg)
    requires Head(s, a, b, m) && m.RMR? && t == RmrHandle(PopLink(s, a, b), m.sid, m.rid, m.buflen)
    ensures var h := s.sends[m.sid]; var n := Min(h.buflen, m.buflen);
      && t.sends == s.sends[m.sid := DataSent(h).(phase := Flight(RDS(m.sid, m.rid, n, Prefix(h.CurData(), n))))]
      && t.recvs == s.recvs && t.matchOf == s.matchOf && t.sq == s.sq && t.rq == s.rq && t.clock == s.clock
      && t.rfrees == s.rfrees && t.sfrees == s.sfrees && t.sysLive == s.sysLive
      && t.links == PopLink(s, a, b).Post(h.req.src.mac, h.req.dest.mac, RDS(m.sid, m.rid, n, Prefix(h.CurData(), n))).links
      && t.err == (s.err || (h.stat != PEND_STRT && h.stat != PEND_WAIT && h.stat != PEND_RELS))
  {
    hide SendOk, PairOk, DataSent, Min, Prefix;
  }

  lemma RmrHandles(s: State, t: State, m: Msg)
    requires m.sid in s.sends && m.RMR? && s.sends[m.sid].phase == Flight(m) && m.sid in s.matchOf && PairOk(s, m.sid) && SendOk(s, m.sid)
    requires var h := s.sends[m.sid]; var n := Min(h.buflen, m.buflen);
      t.sends == s.sends[m.sid := DataSent(h).(phase := Flight(RDS(m.sid, m.rid, n, Prefix(h.CurData(), n))))]
    requires t.recvs == s.recvs && t.matchOf == s.matchOf && t.clock == s.clock
    ensures PairOk(t, m.sid) && SendOk(t, m.sid) && s.matchOf[m.sid] == m.rid && t.sends[m.sid].req == s.sends[m.sid].req
    ensures s.sends[m.sid].stat != FREE && t.sends[m.sid].stat != FREE
    ensures s.sends[m.sid].stat == PEND_STRT || s.sends[m.sid].stat == PEND_WAIT || s.sends[m.sid].stat == PEND_RELS
  { }

  lemma RmrReplied(s: State, t: State, a: nat, b: nat, m: Msg)
    requires Head(s, a, b, m) && m.RMR? && t == RmrHandle(PopLink(s, a, b), m.sid, m.rid, m.buflen)
    requires m.sid in s.matchOf && s.matchOf[m.sid] == m.rid && PairOk(s, m.sid) && SendOk(s, m.sid)
    ensures m.sid in t.sends && t.sends[m.sid].phase.Flight? && Replied(s, t, a, b, m.sid, m.rid, t.sends[m.sid].phase.m)
    ensures t.matchOf == s.matchOf && t.rq == s.rq && t.recvs == s.recvs
  {
    RmrShape(s, t, a, b, m);
    hide SendOk, RmrHandle, Min, Prefix;
  }

  lemma RmrKeeps(s: State, a: nat, b: nat, m: Msg)
    requires Inv(s) && Head(s, a, b, m) && m.RMR?
    ensures Inv(RmrHandle(PopLink(s, a, b), m.sid, m.rid, m.buflen))
  {
    hide LinksFine, SqsFine, RqsFine, SendsInOrder, RecvsInOrder, ResourcesOk, HandlesOk, PairsOk, Apart, QueueBeforeLink, SendOk, RmrHandle, Min, Prefix, Replied, PopLink, PairOk, DataSent;
    var t := RmrHandle(PopLink(s, a, b), m.sid, m.rid, m.buflen);
    AckedMet(s, m);
    RmrShape(s, t, a, b, m);
    RmrHandles(s, t, m);
    ResourcesSame(s, t);
    RmrReplied(s, t, a, b, m);
    ExchangeKeeps(s, t, a, b, m, m.rid);
  }

  lemma RdsShape(s: State, t: State, a: nat, b: nat, m: Msg)
    requires Head(s, a, b, m) && m.RDS? && t == RdsHandle(PopLink(s, a, b), m.sid, m.rid, m.buflen, m.payload)
    requires m.rid in s.recvs && (s.recvs[m.rid].stat == PEND_DATA || s.recvs[m.rid].stat == PEND_DWAT) && s.recvs[m.rid].src.Is?
    ensures var r := s.recvs[m.rid]; var n := Min(r.buflen, m.buflen);
      && t.sends == s.sends[m.sid := s.sends[m.sid].(phase := Flight(RDR(m.sid, n)))]
      && t.recvs == s.recvs[m.rid := WithData(r, m.sid, n, m.payload)]
      && t.matchOf == s.matchOf && t.sq == s.sq && t.rq == s.rq && t.clock == s.clock
      && t.rfrees == s.rfrees && t.sfrees == s.sfrees && t.sysLive == s.sysLive
      && t.links == PopLink(s, a, b).Post(r.req.dest.mac, r.src.v.mac, RDR(m.sid, n)).links
      && t.err == (s.err || n + (if n < m.buflen then m.buflen - n else 0) != |m.payload|)
  {
    hide SendOk, PairOk, WithData, Min;
  }

  lemma RdsHandles(s: State, t: State, m: Msg)
    requires m.sid in s.sends && m.RDS? && s.sends[m.sid].phase == Flight(m) && m.sid in s.matchOf && PairOk(s, m.sid) && SendOk(s, m.sid)
    requires m.rid in s.recvs && RecvOk(s, m.rid)
    requires var r := s.recvs[m.rid]; var n := Min(r.buflen, m.buflen);
      && t.sends == s.sends[m.sid := s.sends[m.sid].(phase := Flight(RDR(m.sid, n)))]
      && t.recvs == s.recvs[m.rid := WithData(r, m.sid, n, m.payload)]
    requires t.matchOf == s.matchOf && t.clock == s.clock
    ensures PairOk(t, m.sid) && SendOk(t, m.sid) && RecvOk(t, m.rid)
    ensures Min(s.recvs[m.rid].buflen, m.buflen) == m.buflen == |m.payload|
    ensures s.recvs[m.rid].stat != FREE && t.recvs[m.rid].stat != FREE
  { }

  lemma RdsKnown(s: State, m: Msg)
    requires Inv(s) && m.sid in s.sends && m.RDS? && s.sends[m.sid].phase == Flight(m)
    ensures m.sid in s.matchOf && s.matchOf[m.sid] == m.rid && PairOk(s, m.sid) && SendOk(s, m.sid)
    ensures m.rid in s.recvs && RecvOk(s, m.rid) && (s.recvs[m.rid].stat == PEND_DATA || s.recvs[m.rid].stat == PEND_DWAT)
    ensures s.recvs[m.rid].phase == Awaiting(m.sid)
    ensures s.recvs[m.rid].src == Is(s.sends[m.sid].req.src) && s.recvs[m.rid].req.dest == s.sends[m.sid].req.dest
  {
    hide Inv;
    SendAt(s, m.sid);
    RecvAt(s, m.rid);
  }

  lemma RdsKeeps(s: State, a: nat, b: nat, m: Msg)
    requires Inv(s) && Head(s, a, b, m) && m.RDS?
    ensures Inv(RdsHandle(PopLink(s, a, b), m.sid, m.rid, m.buflen, m.payload))
  {
    hide LinksFine, SqsFine, RqsFine, SendsInOrder, RecvsInOrder, ResourcesOk, HandlesOk, PairsOk, Apart, QueueBeforeLink, SendOk, RecvOk, RdsHandle, Min;
    var t := RdsHandle(PopLink(s, a, b), m.sid, m.rid, m.buflen, m.payload);
    RdsKnown(s, m);
    RdsShape(s, t, a, b, m);
    RdsHandles(s, t, m);
    ResourcesSame(s, t);
    assert Replied(s, t, a, b, m.sid, m.rid, t.sends[m.sid].phase.m);
    ExchangeKeeps(s, t, a, b, m, m.rid);
  }

  lemma ExchangeTokens(s: State, t: State, a: nat, b: nat, m: Msg, rid: nat)
    requires LinksFine(s) && SqsFine(s) && RqsFine(s) && Apart(s) && QueueBeforeLink(s)
    requires Head(s, a, b, m) && m.sid in t.sends && t.sends[m.sid].phase.Flight?
    requires Replied(s, t, a, b, m.sid, rid, t.sends[m.sid].phase.m)
    requires m.sid in s.matchOf && s.matchOf[m.sid] == rid && t.matchOf == s.matchOf && t.rq == s.rq
    ensures LinksFine(t) && SqsFine(t) && RqsFine(t) && Apart(t) && QueueBeforeLink(t)
  {
    hide LinksFine, SqsFine, RqsFine, Apart, QueueBeforeLink, SendOk;
    var sid := m.sid;
    LinksReplied(s, t, a, b, t.sends[sid].phase.m);
    SqsSame(s, t, sid);
    RqsSameBut(s, t, rid);
    ApartKept(s, t, sid, rid);
    QueueBeforeLinkSame(s, t, sid, rid);
  }

  /** A step of an exchange between two matched handles */
  lemma ExchangeKeeps(s: State, t: State, a: nat, b: nat, m: Msg, rid: nat)
    requires Inv(s) && Head(s, a, b, m) && m.sid in t.sends && t.sends[m.sid].phase.Flight?
    requires Replied(s, t, a, b, m.sid, rid, t.sends[m.sid].phase.m) && !t.err && ResourcesOk(t)
    requires m.sid in s.matchOf && s.matchOf[m.sid] == rid && t.matchOf == s.matchOf && t.rq == s.rq
    requires PairOk(t, m.sid) && SendOk(t, m.sid) && (t.recvs[rid] != s.recvs[rid] ==> RecvOk(t, rid))
    ensures Inv(t)
  {
    hide LinksFine, SqsFine, RqsFine, SendsInOrder, RecvsInOrder, ResourcesOk, HandlesOk, Apart, QueueBeforeLink, SendOk, RecvOk;
    ExchangeTokens(s, t, a, b, m, rid);
    MoveKeeps(s, t, m.sid, rid);
  }

  // ---------- The arrival of a send ----------

  /** The send whose request heads a link was started before all others on the link. */
  lemma HeadFirst(s: State, a: nat, b: nat, m: Msg)
    requires LinksFine(s) && Head(s, a, b, m) && m.Request()
    ensures forall c :: (c in s.sends && c != m.sid && s.sends[c].phase.Flight? && s.sends[c].phase.m.Request()
              && LinkOf(s.sends[c].req, s.sends[c].phase.m) == (a, b)) ==> s.sends[m.sid].no < s.sends[c].no
  {
    hide SendOk, PairOk;
    forall c | c in s.sends && c != m.sid && s.sends[c].phase.Flight? && s.sends[c].phase.m.Request()
        && LinkOf(s.sends[c].req, s.sends[c].phase.m) == (a, b)
      ensures s.sends[m.sid].no < s.sends[c].no
    {
      assert c !in {};
      assert InLink(s, c);
      assert LinkSorted(s, s.links[(a, b)]);
      var j :| 0 <= j < |s.Link(a, b)| && s.Link(a, b)[j] == s.sends[c].phase.m;
      assert j > 0;
    }
  }

  lemma RequestKnown(s: State, m: Msg)
    requires m.sid in s.sends && s.sends[m.sid].phase == Flight(m) && (m.sid in s.matchOf ==> PairOk(s, m.sid)) && SendOk(s, m.sid)
    requires m.Request()
    ensures m.sid !in s.matchOf && m.hdr == s.sends[m.sid].req.Header() && s.sends[m.sid].req.Remote()
    ensures m.RMDS? ==> m.payload == s.sends[m.sid].req.payload
  { }

  /** A request at the head of a link and the posted receive at index `i` that takes it */
  ghost predicate ArrivedPair(s: State, a: nat, b: nat, m: Msg, i: nat, rid: nat) {
    && Head(s, a, b, m) && m.Request() && m.sid !in s.matchOf && m.hdr == s.sends[m.sid].req.Header()
    && s.sends[m.sid].req.Remote() && (m.RMDS? ==> m.payload == s.sends[m.sid].req.payload)
    && i < |s.RQ(m.hdr.dest)| && rid == s.RQ(m.hdr.dest)[i]
    && rid in s.recvs && s.recvs[rid].phase.Posted? && RecvOk(s, rid) && Accepts(s.recvs[rid].req, s.sends[m.sid].req)
  }

  /** All fields that the match of an arriving request writes */
  ghost predicate Arrived(s: State, t: State, a: nat, b: nat, m: Msg, i: nat, rid: nat)
    requires ArrivedPair(s, a, b, m, i, rid)
  {
    var h, r := s.sends[m.sid], s.recvs[rid];
    var n := Min(r.buflen, m.hdr.buflen);
    var reply := if m.RMS? then RMR(m.sid, rid, n) else RMDR(m.sid, n);
    var r' := r.(tag := Is(m.hdr.tag), src := Is(m.hdr.src), buflen := n);
    && t.sends == s.sends[m.sid := h.(phase := Flight(reply))]
    && t.recvs == s.recvs[rid :=
         if m.RMS? then r'.(phase := Awaiting(m.sid), stat := if r.stat == PEND_STRT then PEND_DATA
                                                        else if r.stat == PEND_WAIT then PEND_DWAT else r.stat)
         else MatchRecv(r'.(data := CopyInto(r.data, m.payload, n), phase := Received(m.sid)))]
    && t.rq == s.rq[m.hdr.dest := RemoveAt(s.RQ(m.hdr.dest), i)] && t.sq == s.sq
    && t.links == PopLink(s, a, b).Post(m.hdr.dest.mac, m.hdr.src.mac, reply).links
    && t.matchOf == s.matchOf[m.sid := rid] && t.clock == s.clock
    && t.sfrees == s.sfrees && t.rfrees == s.rfrees && t.sysLive == s.sysLive
    && t.err == (s.err || (r.stat != PEND_WAIT && r.stat != PEND_STRT)
                 || (m.RMDS? && n + (if n < m.hdr.buflen then m.hdr.buflen - n else 0) != |m.payload|))
  }

  lemma RmsShape(s: State, t: State, a: nat, b: nat, m: Msg, i: nat, rid: nat)
    requires ArrivedPair(s, a, b, m, i, rid) && m.RMS? && t == RmsMatch(PopLink(s, a, b), m.sid, m.hdr, i)
    ensures Arrived(s, t, a, b, m, i, rid)
  {
    hide SendOk, PairOk, RecvOk, Accepts, Min, RemoveAt;
    assert PopLink(s, a, b).RQ(m.hdr.dest) == s.RQ(m.hdr.dest) by { assert PopLink(s, a, b).rq == s.rq; }
  }

  lemma RmdsShape(s: State, t: State, a: nat, b: nat, m: Msg, i: nat, rid: nat)
    requires ArrivedPair(s, a, b, m, i, rid) && m.RMDS? && t == RmdsMatch(PopLink(s, a, b), m.sid, m.hdr, m.payload, i)
    ensures Arrived(s, t, a, b, m, i, rid)
  {
    hide SendOk, PairOk, RecvOk, Accepts, Min, RemoveAt, CopyInto, MatchRecv;
    assert PopLink(s, a, b).RQ(m.hdr.dest) == s.RQ(m.hdr.dest) by { assert PopLink(s, a, b).rq == s.rq; }
  }

  lemma ArrivedOutline(s: State, t: State, a: nat, b: nat, m: Msg, i: nat, rid: nat)
    requires ArrivedPair(s, a, b, m, i, rid) && Arrived(s, t, a, b, m, i, rid)
    ensures NewPair(s, t, m.sid, rid) && t.recvs[rid].no == s.recvs[rid].no && t.sends[m.sid].no == s.sends[m.sid].no
    ensures t.sends[m.sid].phase.Flight? && t.sends[m.sid].phase.m.sid == m.sid
    ensures t.sends[m.sid].phase.m.RMR? || t.sends[m.sid].phase.m.RMDR?
    ensures t.links == PopLink(s, a, b).Post(m.hdr.dest.mac, m.hdr.src.mac, t.sends[m.sid].phase.m).links
    ensures t.rq == s.rq[m.hdr.dest := RemoveAt(s.RQ(m.hdr.dest), i)] && t.sq == s.sq && t.clock == s.clock
  {
    hide Head, RecvOk, Accepts, Min, RemoveAt, CopyInto;
    assert s.sends[m.sid].phase == Flight(m) && s.Link(a, b) != [] by { HeadParts(s, a, b, m); }
  }

  lemma HeadParts(s: State, a: nat, b: nat, m: Msg)
    requires Head(s, a, b, m)
    ensures s.Link(a, b) != [] && m == s.Link(a, b)[0] && m.sid in s.sends && s.sends[m.sid].phase == Flight(m)
    ensures (a, b) == LinkOf(s.sends[m.sid].req, m) && SendOk(s, m.sid)
  { }

  lemma ArrivedTokens(s: State, t: State, a: nat, b: nat, m: Msg, i: nat, rid: nat)
    requires LinksFine(s) && SqsFine(s) && RqsFine(s) && Apart(s) && QueueBeforeLink(s)
    requires ArrivedPair(s, a, b, m, i, rid) && Arrived(s, t, a, b, m, i, rid)
    ensures LinksFine(t) && SqsFine(t) && RqsFine(t) && Apart(t) && QueueBeforeLink(t)
  {
    hide LinksFine, SqsFine, RqsFine, Apart, QueueBeforeLink, RecvOk, SendOk, PairOk, Accepts, RemoveAt, Arrived;
    ArrivedOutline(s, t, a, b, m, i, rid);
    LinksReplied(s, t, a, b, t.sends[m.sid].phase.m);
    SqsSame(s, t, m.sid);
    RqsRemoved(s, t, m.hdr.dest, i);
    ApartKept(s, t, m.sid, rid);
    QueueBeforeLinkSame(s, t, m.sid, rid);
  }

  lemma ArrivedSendOk(s: State, t: State, a: nat, b: nat, m: Msg, i: nat, rid: nat)
    requires ArrivedPair(s, a, b, m, i, rid) && Arrived(s, t, a, b, m, i, rid)
    ensures PairOk(t, m.sid) && SendOk(t, m.sid) && t.sends[m.sid].stat == s.sends[m.sid].stat
  {
    hide RemoveAt, PopLink, LinkOf, CopyInto;
  }

  lemma ArrivedRecvOk(s: State, t: State, a: nat, b: nat, m: Msg, i: nat, rid: nat)
    requires ArrivedPair(s, a, b, m, i, rid) && Arrived(s, t, a, b, m, i, rid) && !s.err
    ensures RecvOk(t, rid) && !t.err
    ensures t.recvs[rid].stat != FREE && s.recvs[rid].stat != FREE
  {
    hide RemoveAt, PopLink, LinkOf, SendOk, PairOk, Accepts;
    if m.RMDS? { assert |m.payload| == m.hdr.buflen; }
  }

  lemma ArrivedFits(s: State, t: State, a: nat, b: nat, m: Msg, rid: nat)
    requires Inv(s) && PairsOk(t) && Head(s, a, b, m) && m.Request() && NewPair(s, t, m.sid, rid)
    requires s.recvs[rid].phase.Posted? && Accepts(s.recvs[rid].req, s.sends[m.sid].req)
    requires t.recvs[rid].no == s.recvs[rid].no && t.sends[m.sid].no == s.sends[m.sid].no && !t.sends[m.sid].phase.Fresh?
    requires forall r :: r in s.recvs && s.recvs[r].phase.Posted? && s.recvs[r].no < s.recvs[rid].no ==> !Accepts(s.recvs[r].req, s.sends[m.sid].req)
    ensures Fits(s, t, m.sid, rid)
  {
    hide LinksFine, SqsFine, RqsFine, SendsInOrder, RecvsInOrder, ResourcesOk, HandlesOk, QueueBeforeLink, SendOk;
    HeadFirst(s, a, b, m);
    PairAt(t, m.sid);
    assert Apart(s);
    forall c | c in t.sends ensures NotOvertaken(t, c, m.sid) { }
    forall r | r in t.recvs ensures NotPassedOver(t, r, m.sid) { }
  }

  lemma ArrivedResources(s: State, t: State, sid: nat, rid: nat)
    requires ResourcesOk(s) && NewPair(s, t, sid, rid) && t.sends[sid].stat == s.sends[sid].stat
    requires t.recvs[rid].stat != FREE && s.recvs[rid].stat != FREE
    ensures ResourcesOk(t)
  {
    hide ResourcesOk;
    ResourcesSame(s, t);
  }

  lemma ArrivedKeeps(s: State, t: State, a: nat, b: nat, m: Msg, i: nat, rid: nat)
    requires Inv(s) && ArrivedPair(s, a, b, m, i, rid) && Arrived(s, t, a, b, m, i, rid)
    requires forall r :: r in s.recvs && s.recvs[r].phase.Posted? && s.recvs[r].no < s.recvs[rid].no ==> !Accepts(s.recvs[r].req, s.sends[m.sid].req)
    ensures Inv(t)
  {
    hide LinksFine, SqsFine, RqsFine, SendsInOrder, RecvsInOrder, ResourcesOk, HandlesOk, Apart, QueueBeforeLink, Fits, SendOk, RecvOk, Accepts, Arrived, RemoveAt, PopLink, PairOk;
    ArrivedOutline(s, t, a, b, m, i, rid);
    ArrivedTokens(s, t, a, b, m, i, rid);
    ArrivedSendOk(s, t, a, b, m, i, rid);
    ArrivedRecvOk(s, t, a, b, m, i, rid);
    ArrivedResources(s, t, m.sid, rid);
    if PairsOk(t) { ArrivedFits(s, t, a, b, m, rid); }
    hide PairsOk, Head;
    MoveKeeps(s, t, m.sid, rid);
  }

  // ---------- A send that is not expected ----------

  lemma QueueRemoteTokens(s: State, t: State, a: nat, b: nat, m: Msg, data: Option<seq<Byte>>)
    requires LinksFine(s) && SqsFine(s) && RqsFine(s) && Apart(s) && QueueBeforeLink(s) && Head(s, a, b, m) && m.Request()
    requires m.hdr == s.sends[m.sid].req.Header() && t == QueueRemote(PopLink(s, a, b), m.sid, m.hdr, data)
    requires forall c :: c in s.recvs && s.recvs[c].phase.Posted? ==> !Accepts(s.recvs[c].req, s.sends[m.sid].req)
    ensures LinksFine(t) && SqsFine(t) && RqsFine(t) && Apart(t) && QueueBeforeLink(t)
  {
    hide LinksFine, SqsFine, RqsFine, Apart, Accepts, SendOk, PairOk;
    HeadFirst(s, a, b, m);
    LinksPopped(s, t, a, b);
    QueuedEarlier(s, m);
    SqsAdded(s, t, m.sid, RemoteE(m.sid, m.hdr, data));
    RqsSame(s, t);
    ApartKept(s, t, m.sid, 0);
    QueueBeforeLinkKept(s, t, m.sid, 0);
  }

  lemma QueuedEarlier(s: State, m: Msg)
    requires SqsFine(s) && QueueBeforeLink(s) && m.sid in s.sends && s.sends[m.sid].phase == Flight(m) && m.Request()
    ensures forall f :: f in s.SQ(s.sends[m.sid].req.dest) && s.Snd(f.sid).req.src.mac == s.sends[m.sid].req.src.mac
              ==> SendNo(s, f.sid) < s.sends[m.sid].no
  {
    var d := s.sends[m.sid].req.dest;
    if d in s.sq { assert SqOk(s, d, {}); }
  }

  lemma QueueRemoteOk(s: State, t: State, a: nat, b: nat, m: Msg, data: Option<seq<Byte>>)
    requires Head(s, a, b, m) && m.Request() && m.sid !in s.matchOf && m.hdr == s.sends[m.sid].req.Header()
    requires s.sends[m.sid].req.mode != READY && (data.Some? ==> data.value == s.sends[m.sid].req.payload)
    requires t == QueueRemote(PopLink(s, a, b), m.sid, m.hdr, data)
    ensures OnlySend(s, t, m.sid) && StillOrNow(s, t, m.sid) && SendOk(t, m.sid)
  { }

  lemma QueueRemoteKeeps(s: State, a: nat, b: nat, m: Msg, data: Option<seq<Byte>>)
    requires Inv(s) && Head(s, a, b, m) && m.Request() && m.sid !in s.matchOf && m.hdr == s.sends[m.sid].req.Header()
    requires s.sends[m.sid].req.mode != READY && (data.Some? ==> data.value == s.sends[m.sid].req.payload)
    requires forall c :: c in s.recvs && s.recvs[c].phase.Posted? ==> !Accepts(s.recvs[c].req, s.sends[m.sid].req)
    ensures Inv(QueueRemote(PopLink(s, a, b), m.sid, m.hdr, data))
  {
    hide LinksFine, SqsFine, RqsFine, SendsInOrder, RecvsInOrder, ResourcesOk, HandlesOk, Apart, QueueBeforeLink, Accepts, SendOk, PairsOk, QueueRemote, PopLink, OnlySend;
    var t := QueueRemote(PopLink(s, a, b), m.sid, m.hdr, data);
    QueueRemoteTokens(s, t, a, b, m, data);
    QueueRemoteOk(s, t, a, b, m, data);
    OnlySendKeeps(s, t, m.sid);
  }

  lemma RefuseTokens(s: State, t: State, a: nat, b: nat, m: Msg)
    requires LinksFine(s) && SqsFine(s) && RqsFine(s) && Apart(s) && QueueBeforeLink(s) && Head(s, a, b, m) && m.Request()
    requires m.hdr == s.sends[m.sid].req.Header() && t == Refuse(PopLink(s, a, b), m.sid, m.hdr)
    ensures LinksFine(t) && SqsFine(t) && RqsFine(t) && Apart(t) && QueueBeforeLink(t)
  {
    hide LinksFine, SqsFine, RqsFine, Apart, QueueBeforeLink, Accepts, SendOk, PairOk;
    LinksReplied(s, t, a, b, RNDY(m.sid));
    SqsSame(s, t, m.sid);
    RqsSame(s, t);
    ApartKept(s, t, m.sid, 0);
    QueueBeforeLinkSame(s, t, m.sid, 0);
  }

  lemma RefuseOk(s: State, t: State, a: nat, b: nat, m: Msg)
    requires Head(s, a, b, m) && m.Request() && m.sid !in s.matchOf && m.hdr == s.sends[m.sid].req.Header()
    requires s.sends[m.sid].req.mode == READY && t == Refuse(PopLink(s, a, b), m.sid, m.hdr)
    ensures OnlySend(s, t, m.sid) && StillOrNow(s, t, m.sid) && SendOk(t, m.sid)
  { }

  lemma RefuseKeeps(s: State, a: nat, b: nat, m: Msg)
    requires Inv(s) && Head(s, a, b, m) && m.Request() && m.sid !in s.matchOf && m.hdr == s.sends[m.sid].req.Header()
    requires s.sends[m.sid].req.mode == READY
    ensures Inv(Refuse(PopLink(s, a, b), m.sid, m.hdr))
  {
    hide LinksFine, SqsFine, RqsFine, SendsInOrder, RecvsInOrder, ResourcesOk, HandlesOk, Apart, QueueBeforeLink, SendOk, PairsOk, Refuse, PopLink, OnlySend;
    var t := Refuse(PopLink(s, a, b), m.sid, m.hdr);
    RefuseTokens(s, t, a, b, m);
    RefuseOk(s, t, a, b, m);
    OnlySendKeeps(s, t, m.sid);
  }

  /** The search of the receive queue sees what it saw before the message was taken off the link. */
  lemma SameSearch(s: State, a: nat, b: nat, d: Rank, q: seq<nat>, ctx: nat, tag: int, src: Rank)
    requires s.Link(a, b) != []
    ensures FindRecv(PopLink(s, a, b), q, ctx, tag, src) == FindRecv(s, q, ctx, tag, src)
    ensures PopLink(s, a, b).RQ(d) == s.RQ(d)
  { }

  lemma RequestKeeps(s: State, a: nat, b: nat, m: Msg, alloc: bool)
    requires Inv(s) && Head(s, a, b, m) && m.Request()
    ensures Inv(Handle(PopLink(s, a, b), m, alloc))
  {
    hide Inv, Head, RmsMatch, RmdsMatch, QueueRemote, Refuse, Accepts, RqCmp, Arrived, SendOk, RecvOk, PopLink;
    HeadParts(s, a, b, m);
    SendAt(s, m.sid);
    RequestKnown(s, m);
    var p := PopLink(s, a, b);
    var q := s.sends[m.sid].req;
    var hdr := m.hdr;
    SameSearch(s, a, b, hdr.dest, s.RQ(hdr.dest), hdr.ctx, hdr.tag, hdr.src);
    var i := FindRecv(s, s.RQ(hdr.dest), hdr.ctx, hdr.tag, hdr.src);
    if i < |s.RQ(hdr.dest)| {
      var rid := s.RQ(hdr.dest)[i];
      FirstReceive(s, q, i);
      RecvAt(s, rid);
      assert ArrivedPair(s, a, b, m, i, rid);
      if m.RMS? {
        RmsShape(s, RmsMatch(p, m.sid, hdr, i), a, b, m, i, rid);
        ArrivedKeeps(s, RmsMatch(p, m.sid, hdr, i), a, b, m, i, rid);
      } else {
        RmdsShape(s, RmdsMatch(p, m.sid, hdr, m.payload, i), a, b, m, i, rid);
        ArrivedKeeps(s, RmdsMatch(p, m.sid, hdr, m.payload, i), a, b, m, i, rid);
      }
    } else {
      NoReceiveFor(s, q);
      if q.mode == READY {
        RefuseKeeps(s, a, b, m);
        FlagFalse(Refuse(p, m.sid, hdr));
      } else {
        var data := if m.RMDS? && alloc then Some(Prefix(m.payload, hdr.buflen)) else None;
        QueueRemoteKeeps(s, a, b, m, data);
        FlagFalse(QueueRemote(p, m.sid, hdr, data));
      }
    }
  }

  lemma DeliverKeeps(s: State, a: nat, b: nat, alloc: bool)
    requires Inv(s) && s.Link(a, b) != []
    ensures Inv(Deliver(s, a, b, alloc))
  {
    hide Inv, Head, RmsHandle, RmdsHandle, RdsHandle, RmrHandle, RdrHandle, RmdrHandle, RndyHandle, PopLink;
    var m := s.Link(a, b)[0];
    HeadAt(s, a, b);
    match m
    case RMS(_, _) => RequestKeeps(s, a, b, m, alloc);
    case RMDS(_, _, _) => RequestKeeps(s, a, b, m, alloc);
    case RDS(_, _, _, _) => RdsKeeps(s, a, b, m);
    case RMR(_, _, _) => RmrKeeps(s, a, b, m);
    case RDR(_, _) => RdrKeeps(s, a, b, m);
    case RMDR(_, _) => RmdrKeeps(s, a, b, m);
    case RNDY(_) => RndyKeeps(s, a, b, m);
  }

  // ---------- Every step, every run ----------

  lemma StepKeeps(s: State, st: Step)
    requires Inv(s) && Enabled(s, st)
    ensures Inv(Apply(s, st))
  {
    hide Inv, InitSh, StartSh, WaitSh, WakeSh, Scribble, InitRh, StartRh, WaitRh, WakeRh, Deliver;
    match st
    case SInit(sid, src, dest, tag, ctx, mode, buf, alloc) => InitShKeeps(s, sid, src, dest, tag, ctx, mode, buf, alloc);
    case SStart(sid) => StartShKeeps(s, sid);
    case SWait(sid) => WaitShKeeps(s, sid);
    case SWake(sid) => WakeShKeeps(s, sid);
    case SScribble(sid, bytes) => ScribbleKeeps(s, sid, bytes);
    case RInit(rid, rreq) => InitRhKeeps(s, rid, rreq);
    case RStart(rid) => StartRhKeeps(s, rid);
    case RWait(rid) => WaitRhKeeps(s, rid);
    case RWake(rid) => WakeRhKeeps(s, rid);
    case Arrive(a, b, alloc) => DeliverKeeps(s, a, b, alloc);
  }

  lemma {:induction false} RunKeeps(run: seq<State>, i: nat)
    requires IsRun(run) && i < |run|
    ensures Inv(run[i])
  {
    if i > 0 {
      RunKeeps(run, i - 1);
      assert Next(run[i - 1], run[i]);
      var st: Step :| Enabled(run[i - 1], st) && Apply(run[i - 1], st) == run[i];
      StepKeeps(run[i - 1], st);
    }
  }
}
